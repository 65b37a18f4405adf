/** A caller's buffer, cut into chunks that go through the cipher one by one. */
module Chunks {
  import opened Types

  /** A buffer cut into chunks of at most 32768 bytes, each through the cipher on its own. */
  function Chunked(k: Card, isE: bool, key: nat, s: seq<Byte>): seq<Byte> {
    if s == [] then []
    else
      var n := Min(|s|, CHUNK);
      k.Cipher(isE, key, s[..n]) + Chunked(k, isE, key, s[n..])
  }

  /** The caller's buffer once its first `d` bytes have been processed. */
  function Processed(k: Card, isE: bool, key: nat, u: seq<Byte>, d: nat): seq<Byte>
    requires d <= |u|
  {
    Chunked(k, isE, key, u[..d]) + u[d..]
  }

  lemma {:induction false} ChunkedLength(k: Card, isE: bool, key: nat, s: seq<Byte>)
    requires k.Good()
    ensures |Chunked(k, isE, key, s)| == |s|
    decreases |s|
  {
    if s != [] {
      ChunkedLength(k, isE, key, s[Min(|s|, CHUNK)..]);
    }
  }

  lemma SliceOfTail(head: seq<Byte>, tail: seq<Byte>, lo: nat, hi: nat)
    requires |head| <= lo <= hi <= |head| + |tail|
    ensures (head + tail)[lo..hi] == tail[lo - |head|..hi - |head|]
  {}

  /** The `i`-th 32768 bytes, or what is left of them, go through the cipher on their own. */
  lemma {:induction false} ChunkedAt(k: Card, isE: bool, key: nat, s: seq<Byte>, i: nat)
    requires k.Good() && 32768 * i < |s|
    ensures |Chunked(k, isE, key, s)| == |s|
    ensures var lo, hi := 32768 * i, Min(32768 * i + 32768, |s|);
      Chunked(k, isE, key, s)[lo..hi] == k.Cipher(isE, key, s[lo..hi])
    decreases i
  {
    var n := Min(|s|, CHUNK);
    var head, tail := k.Cipher(isE, key, s[..n]), Chunked(k, isE, key, s[n..]);
    ChunkedLength(k, isE, key, s);
    assert Chunked(k, isE, key, s) == head + tail && |head| == n;
    if i > 0 {
      ChunkedAt(k, isE, key, s[n..], i - 1);
      var lo, hi := 32768 * i, Min(32768 * i + 32768, |s|);
      SliceOfTail(head, tail, lo, hi);
      SliceOfTail(s[..n], s[n..], lo, hi);
      assert s[..n] + s[n..] == s;
    }
  }

  /** One more chunk after a whole number of full ones. */
  lemma {:induction false} ChunkedAppend(k: Card, isE: bool, key: nat, a: seq<Byte>, b: seq<Byte>)
    requires |a| % CHUNK == 0 && 0 < |b| <= CHUNK
    ensures Chunked(k, isE, key, a + b) == Chunked(k, isE, key, a) + k.Cipher(isE, key, b)
    decreases |a|
  {
    if a == [] {
      assert a + b == b && b[..|b|] == b && b[|b|..] == [];
    } else {
      assert (a + b)[..CHUNK] == a[..CHUNK] && (a + b)[CHUNK..] == a[CHUNK..] + b;
      ChunkedAppend(k, isE, key, a[CHUNK..], b);
    }
  }

  /** A write of `n` bytes at `d` takes the buffer from `d` bytes processed to `d + n`. */
  lemma ProcessedStep(k: Card, isE: bool, key: nat, u: seq<Byte>, d: nat, n: nat)
    requires k.Good() && d % CHUNK == 0 && 0 < n <= CHUNK && d + n <= |u|
    ensures |Processed(k, isE, key, u, d)| == |u|
    ensures Processed(k, isE, key, u, d)[d..d + n] == u[d..d + n]
    ensures Blit(Processed(k, isE, key, u, d), d, k.Cipher(isE, key, u[d..d + n]))
      == Processed(k, isE, key, u, d + n)
  {
    ChunkedLength(k, isE, key, u[..d]);
    ChunkedAppend(k, isE, key, u[..d], u[d..d + n]);
    assert u[..d] + u[d..d + n] == u[..d + n];
    var done := Chunked(k, isE, key, u[..d]);
    var c := k.Cipher(isE, key, u[d..d + n]);
    assert Processed(k, isE, key, u, d)[..d] == done;
    assert Processed(k, isE, key, u, d)[d + n..] == u[d + n..];
  }

  lemma {:induction false} ChunkedInverse(k: Card, key: nat, s: seq<Byte>)
    requires k.Good()
    ensures Chunked(k, false, key, Chunked(k, true, key, s)) == s
    decreases |s|
  {
    if s != [] {
      var n := Min(|s|, CHUNK);
      var head, tail := k.enc(key, s[..n]), Chunked(k, true, key, s[n..]);
      ChunkedLength(k, true, key, s[n..]);
      ChunkedInverse(k, key, s[n..]);
      assert Chunked(k, true, key, s) == head + tail && |head| == n;
      assert (head + tail)[..n] == head && (head + tail)[n..] == tail;
    }
  }

  lemma ProcessedInverse(k: Card, key: nat, u: seq<Byte>, length: nat)
    requires k.Good() && length <= |u|
    ensures |Processed(k, true, key, u, length)| == |u|
    ensures Processed(k, false, key, Processed(k, true, key, u, length), length) == u
  {
    ChunkedLength(k, true, key, u[..length]);
    ChunkedInverse(k, key, u[..length]);
    var once := Processed(k, true, key, u, length);
    assert once[..length] == Chunked(k, true, key, u[..length]) && once[length..] == u[length..];
  }
}
