/** What repeated passes over the start of the message window amount to. */
module Windows {
  import opened Types

  /** The first `n` bytes of the window go through the cipher. */
  function Pass(k: Card, isE: bool, key: nat, w: seq<Byte>, n: nat): seq<Byte> {
    Blit(w, 0, k.Cipher(isE, key, Take(w, n)))
  }

  /** A mapped call of `length` bytes: one pass per write, all from the start of the window. */
  function Passes(k: Card, isE: bool, key: nat, w: seq<Byte>, length: nat): seq<Byte>
    decreases length
  {
    if length <= CHUNK then Pass(k, isE, key, w, length)
    else Passes(k, isE, key, Pass(k, isE, key, w, CHUNK), length - CHUNK)
  }

  lemma EmptyPass(k: Card, isE: bool, key: nat, w: seq<Byte>)
    requires k.Good()
    ensures Passes(k, isE, key, w, 0) == w
  {
    assert |k.Cipher(isE, key, Take(w, 0))| == 0;
  }

  lemma FirstPass(k: Card, isE: bool, key: nat, w: seq<Byte>, length: nat)
    requires length > CHUNK
    ensures Passes(k, isE, key, w, length) == Passes(k, isE, key, Pass(k, isE, key, w, CHUNK), length - CHUNK)
  {}

  lemma OnePass(k: Card, isE: bool, key: nat, w: seq<Byte>, n: nat, rem: nat)
    requires k.Good() && n <= CHUNK && (rem > 0 ==> n == CHUNK)
    ensures Passes(k, isE, key, Pass(k, isE, key, w, n), rem) == Passes(k, isE, key, w, n + rem)
  {
    if rem == 0 {
      EmptyPass(k, isE, key, Pass(k, isE, key, w, n));
    } else {
      FirstPass(k, isE, key, w, n + rem);
    }
  }

  // ----- what the passes amount to -----

  lemma {:induction false} PassesFrame(k: Card, isE: bool, key: nat, w: seq<Byte>, length: nat)
    requires k.Good() && |w| >= CHUNK
    ensures |Passes(k, isE, key, w, length)| == |w|
    ensures Passes(k, isE, key, w, length)[Min(length, CHUNK)..] == w[Min(length, CHUNK)..]
    decreases length
  {
    var n := Min(length, CHUNK);
    assert |k.Cipher(isE, key, Take(w, n))| == n;
    assert Pass(k, isE, key, w, n)[n..] == w[n..];
    if length > CHUNK {
      var w1 := Pass(k, isE, key, w, CHUNK);
      PassesFrame(k, isE, key, w1, length - CHUNK);
      var r := Min(length - CHUNK, CHUNK);
      var w2 := Passes(k, isE, key, w1, length - CHUNK);
      assert w2[CHUNK..] == w2[r..][CHUNK - r..] == w1[r..][CHUNK - r..] == w1[CHUNK..];
    }
  }

  /** One write: the mapped call is the cipher of the window's first `length` bytes. */
  lemma SinglePass(k: Card, isE: bool, key: nat, w: seq<Byte>, length: nat)
    requires k.Good() && length <= CHUNK <= |w|
    ensures Passes(k, isE, key, w, length) == k.Cipher(isE, key, w[..length]) + w[length..]
  {
    assert |k.Cipher(isE, key, w[..length])| == length;
  }

  lemma PassUndone(k: Card, key: nat, w: seq<Byte>, n: nat)
    requires k.Good() && n <= |w|
    ensures Pass(k, false, key, Pass(k, true, key, w, n), n) == w
  {
    var c := k.enc(key, Take(w, n));
    assert |c| == n && Take(Pass(k, true, key, w, n), n) == c;
  }

  /** `n` full passes. */
  function FullPasses(k: Card, isE: bool, key: nat, w: seq<Byte>, n: nat): seq<Byte> {
    if n == 0 then w else Pass(k, isE, key, FullPasses(k, isE, key, w, n - 1), CHUNK)
  }

  lemma {:induction false} FullPassesFirst(k: Card, isE: bool, key: nat, w: seq<Byte>, n: nat)
    ensures FullPasses(k, isE, key, Pass(k, isE, key, w, CHUNK), n) == FullPasses(k, isE, key, w, n + 1)
  {
    if n > 0 { FullPassesFirst(k, isE, key, w, n - 1); }
  }

  lemma {:induction false} WholeChunks(k: Card, isE: bool, key: nat, w: seq<Byte>, n: nat)
    requires n > 0
    ensures Passes(k, isE, key, w, n * CHUNK) == FullPasses(k, isE, key, w, n)
    decreases n
  {
    if n == 1 {
      assert FullPasses(k, isE, key, w, 0) == w;
    } else {
      WholeChunks(k, isE, key, Pass(k, isE, key, w, CHUNK), n - 1);
      FullPassesFirst(k, isE, key, w, n - 1);
    }
  }

  lemma {:induction false} FullPassesUndone(k: Card, key: nat, w: seq<Byte>, n: nat)
    requires k.Good() && CHUNK <= |w|
    ensures |FullPasses(k, true, key, w, n)| == |w|
    ensures FullPasses(k, false, key, FullPasses(k, true, key, w, n), n) == w
  {
    if n > 0 {
      FullPassesUndone(k, key, w, n - 1);
      var w1 := FullPasses(k, true, key, w, n - 1);
      FullPassesFirst(k, false, key, Pass(k, true, key, w1, CHUNK), n - 1);
      PassUndone(k, key, w1, CHUNK);
    }
  }

  /** With any cipher the window comes back if the call was one write, or whole chunks only. */
  lemma WholeChunksUndone(k: Card, key: nat, w: seq<Byte>, length: nat)
    requires k.Good() && CHUNK <= |w| && (length <= CHUNK || length % CHUNK == 0)
    ensures Passes(k, false, key, Passes(k, true, key, w, length), length) == w
  {
    if length <= CHUNK {
      PassUndone(k, key, w, length);
    } else {
      var n := length / CHUNK;
      assert length == n * CHUNK;
      FullPassesUndone(k, key, w, n);
      WholeChunks(k, true, key, w, n);
      WholeChunks(k, false, key, FullPasses(k, true, key, w, n), n);
    }
  }

  // ----- ciphers that work byte by byte -----

  /** Under `key` the card works one byte at a time. */
  ghost predicate BytesBy(k: Card, isE: bool, key: nat, h: Byte -> Byte) {
    && k.Good()
    && forall s: seq<Byte>, i {:trigger k.Cipher(isE, key, s)[i]} ::
         0 <= i < |s| ==> k.Cipher(isE, key, s)[i] == h(s[i])
  }

  function Iterate(h: Byte -> Byte, n: nat, b: Byte): Byte {
    if n == 0 then b else h(Iterate(h, n - 1, b))
  }

  /** How many of a mapped call's writes reach byte `i` of the window. */
  function Covers(length: nat, i: nat): nat
    decreases length
  {
    if length <= CHUNK then (if i < length then 1 else 0)
    else (if i < CHUNK then 1 else 0) + Covers(length - CHUNK, i)
  }

  lemma {:induction false} IterateFirst(h: Byte -> Byte, n: nat, b: Byte)
    ensures Iterate(h, n, h(b)) == Iterate(h, n + 1, b)
  {
    if n > 0 { IterateFirst(h, n - 1, b); }
  }

  lemma {:induction false} IterateUndone(f: Byte -> Byte, g: Byte -> Byte, n: nat, b: Byte)
    requires forall x :: g(f(x)) == x
    ensures Iterate(g, n, Iterate(f, n, b)) == b
  {
    if n > 0 {
      IterateFirst(g, n - 1, Iterate(f, n, b));
      IterateUndone(f, g, n - 1, b);
    }
  }

  lemma PassAt(k: Card, isE: bool, key: nat, h: Byte -> Byte, w: seq<Byte>, n: nat, i: nat)
    requires BytesBy(k, isE, key, h) && n <= |w| && i < |w|
    ensures Pass(k, isE, key, w, n)[i] == if i < n then h(w[i]) else w[i]
  {
    var c := k.Cipher(isE, key, w[..n]);
    assert |c| == n;
    if i < n { assert c[i] == h(w[..n][i]); }
  }

  /** Byte `i` of the window has been through the byte cipher once per write that reached it. */
  predicate PassedAt(k: Card, isE: bool, key: nat, h: Byte -> Byte, w: seq<Byte>, length: nat, i: nat)
    requires i < |w|
  {
    var r := Passes(k, isE, key, w, length);
    |r| == |w| && r[i] == Iterate(h, Covers(length, i), w[i])
  }

  lemma LastPass(k: Card, isE: bool, key: nat, h: Byte -> Byte, w: seq<Byte>, length: nat, i: nat)
    requires BytesBy(k, isE, key, h) && length <= CHUNK <= |w| && i < |w|
    ensures PassedAt(k, isE, key, h, w, length, i)
  {
    PassAt(k, isE, key, h, w, length, i);
    assert Iterate(h, 0, w[i]) == w[i];
  }

  lemma LaterPasses(k: Card, isE: bool, key: nat, h: Byte -> Byte, w: seq<Byte>, length: nat, i: nat)
    requires BytesBy(k, isE, key, h) && CHUNK <= |w| && i < |w| && length > CHUNK
    ensures Iterate(h, Covers(length - CHUNK, i), Pass(k, isE, key, w, CHUNK)[i]) == Iterate(h, Covers(length, i), w[i])
  {
    PassAt(k, isE, key, h, w, CHUNK, i);
    if i < CHUNK { IterateFirst(h, Covers(length - CHUNK, i), w[i]); }
  }

  lemma MorePasses(k: Card, isE: bool, key: nat, h: Byte -> Byte, w: seq<Byte>, length: nat, i: nat)
    requires BytesBy(k, isE, key, h) && length > CHUNK && CHUNK <= |w| && i < |w|
    requires PassedAt(k, isE, key, h, Pass(k, isE, key, w, CHUNK), length - CHUNK, i)
    ensures PassedAt(k, isE, key, h, w, length, i)
  {
    LaterPasses(k, isE, key, h, w, length, i);
  }

  lemma {:induction false} PassesAt(k: Card, isE: bool, key: nat, h: Byte -> Byte, w: seq<Byte>, length: nat, i: nat)
    requires BytesBy(k, isE, key, h) && CHUNK <= |w| && i < |w|
    ensures PassedAt(k, isE, key, h, w, length, i)
    decreases length
  {
    if length <= CHUNK {
      LastPass(k, isE, key, h, w, length, i);
    } else {
      PassesAt(k, isE, key, h, Pass(k, isE, key, w, CHUNK), length - CHUNK, i);
      MorePasses(k, isE, key, h, w, length, i);
    }
  }

  lemma ByteInverse(k: Card, key: nat, f: Byte -> Byte, g: Byte -> Byte, x: Byte)
    requires BytesBy(k, true, key, f) && BytesBy(k, false, key, g)
    ensures g(f(x)) == x
  {
    var c := k.Cipher(true, key, [x]);
    assert |c| == 1 && c[0] == f([x][0]);
    assert k.Cipher(false, key, c)[0] == g(c[0]);
  }

  /** Then decrypting a mapped window undoes encrypting it, for every length. */
  lemma ByteWiseUndone(k: Card, key: nat, f: Byte -> Byte, g: Byte -> Byte, w: seq<Byte>, length: nat)
    requires BytesBy(k, true, key, f) && BytesBy(k, false, key, g) && CHUNK <= |w|
    ensures Passes(k, false, key, Passes(k, true, key, w, length), length) == w
  {
    var once := Passes(k, true, key, w, length);
    PassesFrame(k, true, key, w, length);
    PassesFrame(k, false, key, once, length);
    forall x
      ensures g(f(x)) == x
    {
      ByteInverse(k, key, f, g, x);
    }
    forall i | 0 <= i < |w|
      ensures Passes(k, false, key, once, length)[i] == w[i]
    {
      PassesAt(k, true, key, f, w, length, i);
      PassesAt(k, false, key, g, once, length, i);
      IterateUndone(f, g, Covers(length, i), w[i]);
    }
  }

  // ----- why the cipher has to work byte by byte -----

  function Reversed(s: seq<Byte>): (r: seq<Byte>)
    ensures |r| == |s|
    ensures forall i :: 0 <= i < |s| ==> r[i] == s[|s| - 1 - i]
  {
    seq(|s|, i requires 0 <= i < |s| => s[|s| - 1 - i])
  }

  /** A card that reverses what it is given: a good cipher, but not byte by byte. */
  const REVERSING := Card((_, s) => Reversed(s), (_, s) => Reversed(s), true)

  lemma ReversingIsGood()
    ensures REVERSING.Good()
  {
    forall s: seq<Byte>
      ensures Reversed(Reversed(s)) == s
    {
    }
  }

  lemma ReversingPass(isE: bool, w: seq<Byte>, n: nat, i: nat)
    requires n <= |w| && i < |w|
    ensures |Pass(REVERSING, isE, 0, w, n)| == |w|
    ensures Pass(REVERSING, isE, 0, w, n)[i] == if i < n then w[n - 1 - i] else w[i]
  {
    assert REVERSING.Cipher(isE, 0, w[..n]) == Reversed(w[..n]);
  }

  lemma TwoPasses(k: Card, isE: bool, w: seq<Byte>)
    ensures Passes(k, isE, 0, w, CHUNK + 2) == Pass(k, isE, 0, Pass(k, isE, 0, w, CHUNK), 2)
  {
    assert CHUNK + 2 - CHUNK == 2;
  }

  /** Reversing a chunk and then its first two bytes: byte 1 ends up last but one, and the reverse. */
  lemma Moved(isE: bool, w: seq<Byte>)
    requires CHUNK <= |w|
    ensures |Passes(REVERSING, isE, 0, w, CHUNK + 2)| == |w|
    ensures Passes(REVERSING, isE, 0, w, CHUNK + 2)[CHUNK - 2] == w[1]
    ensures Passes(REVERSING, isE, 0, w, CHUNK + 2)[0] == w[CHUNK - 2]
  {
    var w1 := Pass(REVERSING, isE, 0, w, CHUNK);
    ReversingPass(isE, w, CHUNK, CHUNK - 2);
    ReversingPass(isE, w, CHUNK, 1);
    ReversingPass(isE, w1, 2, CHUNK - 2);
    ReversingPass(isE, w1, 2, 0);
    TwoPasses(REVERSING, isE, w);
  }

  /** Two bytes beyond one chunk, and the window does not come back. */
  lemma LongMappedCallNotUndone(w: seq<Byte>)
    requires CHUNK <= |w| && w[0] != w[1]
    ensures REVERSING.Good()
    ensures Passes(REVERSING, false, 0, Passes(REVERSING, true, 0, w, CHUNK + 2), CHUNK + 2) != w
  {
    ReversingIsGood();
    Moved(true, w);
    Moved(false, Passes(REVERSING, true, 0, w, CHUNK + 2));
  }
}
