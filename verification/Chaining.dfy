/** Feeding a message to a block function through a 64-byte buffer, as MD5Update of
    motobox/md5sum.c does, for any block function. */
module Chaining {

  /** The state after the first n blocks of a message. */
  function Chain<S, B>(block: (S, seq<B>) -> S, start: S, m: seq<B>, n: nat): S
    requires 64 * n <= |m|
  {
    if n == 0 then start else block(Chain(block, start, m, n - 1), m[64 * (n - 1)..64 * n])
  }

  lemma {:induction false} ChainPrefix<S, B>(block: (S, seq<B>) -> S, start: S, m: seq<B>, t: seq<B>, n: nat)
    requires 64 * n <= |m|
    ensures Chain(block, start, m + t, n) == Chain(block, start, m, n)
  {
    if n > 0 {
      ChainPrefix(block, start, m, t, n - 1);
      assert (m + t)[64 * (n - 1)..64 * n] == m[64 * (n - 1)..64 * n];
    }
  }

  /** What a buffer and a state hold of message m: whole blocks are in the state, the bytes
      after them wait in the buffer. */
  predicate Tracks<S(==), B(==)>(block: (S, seq<B>) -> S, start: S, state: S, held: seq<B>, m: seq<B>) {
    && |held| == 64
    && state == Chain(block, start, m, |m| / 64)
    && held[..|m| % 64] == m[|m| - |m| % 64..]
  }

  lemma HoldByte<S, B>(block: (S, seq<B>) -> S, start: S, state: S, held: seq<B>, m: seq<B>, b: B)
    requires Tracks(block, start, state, held, m) && |m| % 64 < 63
    ensures Tracks(block, start, state, held[|m| % 64 := b], m + [b]) && |m + [b]| % 64 == |m| % 64 + 1
  {
    var r := |m| % 64;
    ChainPrefix(block, start, m, [b], |m| / 64);
    assert |m + [b]| / 64 == |m| / 64 && |m + [b]| % 64 == r + 1;
    assert held[r := b][..r + 1] == held[..r] + [b];
    assert (m + [b])[|m| - r..] == m[|m| - r..] + [b];
  }

  lemma FillBlock<S, B>(block: (S, seq<B>) -> S, start: S, state: S, held: seq<B>, m: seq<B>, b: B)
    requires Tracks(block, start, state, held, m) && |m| % 64 == 63
    ensures Tracks(block, start, block(state, held[63 := b]), held[63 := b], m + [b]) && |m + [b]| % 64 == 0
  {
    var n := |m| / 64;
    ChainPrefix(block, start, m, [b], n);
    assert held[63 := b] == (m + [b])[64 * n..64 * (n + 1)];
  }

  /** The last block: what waits, completed by the bytes t. */
  lemma LastBlock<S, B>(block: (S, seq<B>) -> S, start: S, state: S, held: seq<B>, m: seq<B>, t: seq<B>)
    requires Tracks(block, start, state, held, m) && |m| % 64 + |t| == 64 && |t| > 0
    ensures Chain(block, start, m + t, |m + t| / 64) == block(state, held[..|m| % 64] + t)
  {
    var n := |m| / 64;
    ChainPrefix(block, start, m, t, n);
    assert held[..|m| % 64] + t == (m + t)[64 * n..64 * (n + 1)];
  }

  /** A sequence taken in groups of four. */
  function Groups<B, W>(join: (B, B, B, B) -> W, s: seq<B>): (r: seq<W>)
    ensures |r| == |s| / 4
  {
    seq(|s| / 4, i requires 0 <= i < |s| / 4 => join(s[4 * i], s[4 * i + 1], s[4 * i + 2], s[4 * i + 3]))
  }

  lemma GroupsConcat<B, W>(join: (B, B, B, B) -> W, s: seq<B>, t: seq<B>)
    requires |s| % 4 == 0
    ensures Groups(join, s + t) == Groups(join, s) + Groups(join, t)
  {
    var n := |s| / 4;
    var r := s + t;
    forall i | 0 <= i < |t| / 4 ensures Groups(join, r)[n + i] == Groups(join, t)[i] {
      var k := 4 * i;
      assert 4 * (n + i) == |s| + k;
      assert r[|s| + k] == t[k] && r[|s| + k + 1] == t[k + 1] && r[|s| + k + 2] == t[k + 2] && r[|s| + k + 3] == t[k + 3];
    }
    forall i | 0 <= i < n ensures Groups(join, r)[i] == Groups(join, s)[i] {
      var k := 4 * i;
      assert r[k] == s[k] && r[k + 1] == s[k + 1] && r[k + 2] == s[k + 2] && r[k + 3] == s[k + 3];
    }
    GroupsLength(|s|, |t|);
  }

  lemma GroupsLength(s: nat, t: nat)
    requires s % 4 == 0
    ensures (s + t) / 4 == s / 4 + t / 4
  {
  }

  lemma GroupsPrefix<B, W>(join: (B, B, B, B) -> W, s: seq<B>, n: nat)
    requires 4 * n <= |s|
    ensures Groups(join, s)[..n] == Groups(join, s[..4 * n])
  {
  }

  lemma TakeNext<B>(m: seq<B>, t: seq<B>, k: nat)
    requires k < |t|
    ensures m + t[..k] + [t[k]] == m + t[..k + 1]
  {
  }

  lemma TakeAll<B>(m: seq<B>, t: seq<B>)
    ensures m + t[..|t|] == m + t
  {
  }
}
