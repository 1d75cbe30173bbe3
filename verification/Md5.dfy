/** The MD5 digest of motobox/md5sum.c: a context fed piece by piece, and the digest that
    sections 3.1 to 3.5 of RFC 1321 give to the whole message. */
module Md5 {
  import opened Md5Transform
  import opened Chaining

  type Byte = bv8
  type Word = bv32

  const TWO32: nat := 0x1_0000_0000

  // ---- words ----

  function F(x: Word, y: Word, z: Word): Word { (x & y) | (!x & z) }
  function G(x: Word, y: Word, z: Word): Word { (x & z) | (y & !z) }
  function H(x: Word, y: Word, z: Word): Word { x ^ y ^ z }
  function I(x: Word, y: Word, z: Word): Word { y ^ (x | !z) }

  function Plus(x: Word, y: Word): Word { x + y }

  function RotateLeft(x: Word, n: Word): Word {
    if n <= 32 then (x << n) | (x >> (32 - n)) else x
  }

  // ---- what the word operations do, bit by bit ----

  /** if x then y else z. */
  lemma FSelects(x: Word, y: Word, z: Word)
    ensures F(x, y, z) & x == y & x && F(x, y, z) & !x == z & !x
  {
  }

  /** if z then x else y. */
  lemma GSelects(x: Word, y: Word, z: Word)
    ensures G(x, y, z) & z == x & z && G(x, y, z) & !z == y & !z
  {
  }

  /** Where z is clear, that one of x and y is set; where z is set, that none or both are. */
  lemma HCounts(x: Word, y: Word, z: Word)
    ensures H(x, y, z) & !z == ((x & !y) | (!x & y)) & !z && H(x, y, z) & z == !((x & !y) | (!x & y)) & z
  {
  }

  /** y, changed where x is set or z is clear. */
  lemma IChanges(x: Word, y: Word, z: Word)
    ensures I(x, y, z) & (x | !z) == !y & (x | !z) && I(x, y, z) & (!x & z) == y & (!x & z)
  {
  }

  /** A rotation by n moves the bits up by n places, and the first n to the bottom. */
  lemma RotateMovesBits(x: Word, n: Word)
    requires 0 < n < 32
    ensures RotateLeft(x, n) >> n == (x << n) >> n && RotateLeft(x, n) << (32 - n) == (x >> (32 - n)) << (32 - n)
  {
  }

  /** Arithmetic modulo 2^32. */
  function Alu32(): Alu<Word> {
    Alu(w => w, Plus, RotateLeft, F, G, H, I)
  }

  /** Each round uses the function it should, and every operation rotates. */
  lemma RoundFunctions(x: Word, y: Word, z: Word, n: Word)
    ensures Mix(Alu32(), 0, x, y, z) == F(x, y, z) && Mix(Alu32(), 1, x, y, z) == G(x, y, z)
    ensures Mix(Alu32(), 2, x, y, z) == H(x, y, z) && Mix(Alu32(), 3, x, y, z) == I(x, y, z)
    ensures Alu32().rotate(x, n) == RotateLeft(x, n)
  {
  }

  lemma PlusIsSum(x: Word, y: Word)
    ensures Plus(x, y) == x + y
  {
  }

  lemma SumAssociates(x: Word, y: Word, z: Word)
    ensures Plus(x + y, z) == Plus(x, y + z)
  {
    assert (x + y) + z == x + (y + z);
  }

  lemma PlusAssociates(x: Word, y: Word, z: Word)
    ensures Plus(Plus(x, y), z) == Plus(x, Plus(y, z))
  {
    PlusIsSum(x, y);
    PlusIsSum(y, z);
    SumAssociates(x, y, z);
  }

  lemma PlusCommutes(x: Word, y: Word)
    ensures Plus(x, y) == Plus(y, x)
  {
  }

  lemma AddIsPlus(x: Word, y: Word)
    ensures Alu32().add(x, y) == Plus(x, y)
  {
  }

  lemma AddAssociates(x: Word, y: Word, z: Word)
    ensures Alu32().add(Alu32().add(x, y), z) == Alu32().add(x, Alu32().add(y, z))
  {
    AddIsPlus(x, y);
    AddIsPlus(y, z);
    AddIsPlus(x, Plus(y, z));
    AddIsPlus(Plus(x, y), z);
    PlusAssociates(x, y, z);
  }

  lemma AddCommutes(x: Word, y: Word)
    ensures Alu32().add(x, y) == Alu32().add(y, x)
  {
    AddIsPlus(x, y);
    AddIsPlus(y, x);
    PlusCommutes(x, y);
  }

  lemma AdditionIsLawful()
    ensures Lawful(Alu32())
  {
    forall x, y ensures Alu32().add(x, y) == Alu32().add(y, x) {
      AddCommutes(x, y);
    }
    forall x, y, z ensures Alu32().add(Alu32().add(x, y), z) == Alu32().add(x, Alu32().add(y, z)) {
      AddAssociates(x, y, z);
    }
  }

  /** Four bytes as the program combines them. */
  function WordOf(b0: Byte, b1: Byte, b2: Byte, b3: Byte): Word {
    ((b3 as Word) << 24) | ((b2 as Word) << 16) | ((b1 as Word) << 8) | (b0 as Word)
  }

  /** The low-order byte comes first. */
  lemma WordOfIsLittleEndian(b0: Byte, b1: Byte, b2: Byte, b3: Byte)
    ensures WordOf(b0, b1, b2, b3) == (b0 as Word) + 0x100 * (b1 as Word) + 0x10000 * (b2 as Word) + 0x1000000 * (b3 as Word)
  {
  }

  function BytesOf(w: Word): (r: seq<Byte>)
    ensures |r| == 4
  {
    [(w & 0xFF) as Byte, ((w >> 8) & 0xFF) as Byte, ((w >> 16) & 0xFF) as Byte, ((w >> 24) & 0xFF) as Byte]
  }

  lemma BytesOfWord(w: Word)
    ensures var r := BytesOf(w); WordOf(r[0], r[1], r[2], r[3]) == w
  {
  }

  function Words(bytes: seq<Byte>): (r: seq<Word>)
    ensures |r| == |bytes| / 4
  {
    Groups(WordOf, bytes)
  }

  // ---- the digest of a whole message ----

  function Initial(): Quad<Word> { Quad(0x67452301, 0xefcdab89, 0x98badcfe, 0x10325476) }

  /** Section 3.4 for one block of bytes. */
  function OnBlocks(): (Quad<Word>, seq<Byte>) -> Quad<Word> {
    (q: Quad<Word>, block: seq<Byte>) => if |block| == 64 then StandardCompress(Alu32(), q, Words(block)) else q
  }

  function Zeros(n: nat): seq<Byte> { seq(n, _ => 0) }

  /** Section 3.1: a 1 bit, then 0 bits up to 56 bytes modulo 64; at least one byte. */
  function Padding(n: nat): (r: seq<Byte>)
    ensures 1 <= |r| <= 64 && (n + |r|) % 64 == 56
  {
    PadLength(n);
    [0x80] + Zeros((119 - n % 64) % 64)
  }

  lemma PadLength(n: nat)
    ensures (n + 1 + (119 - n % 64) % 64) % 64 == 56
  {
    var q, r := n / 64, n % 64;
    assert n == 64 * q + r;
    if r < 56 {
      assert n + 1 + (119 - r) % 64 == 64 * q + 56;
    } else {
      assert n + 1 + (119 - r) % 64 == 64 * (q + 1) + 56;
    }
  }

  function AsWord(n: nat): Word
    requires n < TWO32
  {
    n as Word
  }

  /** Section 3.2: the bit length modulo 2^64 as two words, low-order word and byte first. */
  function Length(n: nat): (r: seq<Byte>)
    ensures |r| == 8
  {
    BytesOf(AsWord(8 * n % TWO32)) + BytesOf(AsWord(8 * n / TWO32 % TWO32))
  }

  lemma WholeBlocks(n: nat)
    requires n % 64 == 56
    ensures (n + 8) % 64 == 0
  {
  }

  function Padded(m: seq<Byte>): (r: seq<Byte>)
    ensures |r| % 64 == 0 && |r| == |m| + |Padding(|m|)| + 8
  {
    WholeBlocks(|m| + |Padding(|m|)|);
    m + Padding(|m|) + Length(|m|)
  }

  lemma WordIs(n: nat, w: Word)
    requires w as nat == n
    ensures n < TWO32 && AsWord(n) == w
  {
  }

  lemma TwoWords(x: nat, low: nat, high: nat)
    requires low < TWO32 && high < TWO32 && low + TWO32 * high == x % 0x1_0000_0000_0000_0000
    ensures x % TWO32 == low && x / TWO32 % TWO32 == high
  {
    var g := x / 0x1_0000_0000_0000_0000;
    assert x == TWO32 * (TWO32 * g + high) + low;
    DivMod(x, TWO32 * g + high, low);
    DivMod(TWO32 * g + high, g, high);
  }

  /** The last eight bytes are the number of bits modulo 2^64, low-order word and byte first. */
  lemma LengthMeans(n: nat, low: Word, high: Word)
    requires low as nat + TWO32 * (high as nat) == 8 * n % 0x1_0000_0000_0000_0000
    ensures Length(n) == BytesOf(low) + BytesOf(high)
  {
    WordIs(low as nat, low);
    WordIs(high as nat, high);
    TwoWords(8 * n, low as nat, high as nat);
  }

  /** In front of them the message, a 1 bit and zeros, to a multiple of sixty-four bytes. */
  lemma PaddedMeans(m: seq<Byte>)
    ensures var p := Padded(m);
            && m <= p && |p| % 64 == 0 && |m| + 9 <= |p| <= |m| + 72
            && p[|m|] == 0x80 && (forall i :: |m| < i < |p| - 8 ==> p[i] == 0) && p[|p| - 8..] == Length(|m|)
  {
  }

  /** Section 3.5: the final state, low-order byte of A first. */
  function Output(words: seq<Word>): seq<Byte> {
    if words == [] then [] else Output(words[..|words| - 1]) + BytesOf(words[|words| - 1])
  }

  function WordsOf(q: Quad<Word>): seq<Word> { [q.a, q.b, q.c, q.d] }

  lemma OutputNext(words: seq<Word>, w: Word)
    ensures Output(words + [w]) == Output(words) + BytesOf(w)
  {
    assert (words + [w])[..|words|] == words;
  }

  lemma {:induction false} OutputTwo(a: Word, b: Word)
    ensures Output([a, b]) == BytesOf(a) + BytesOf(b)
  {
    OutputNext([], a);
    OutputNext([a], b);
    assert [] + [a] == [a] && [a] + [b] == [a, b] && [] + BytesOf(a) == BytesOf(a);
  }

  /** A before B before C before D. */
  lemma {:induction false} OutputOrder(q: Quad<Word>)
    ensures Output(WordsOf(q)) == BytesOf(q.a) + BytesOf(q.b) + BytesOf(q.c) + BytesOf(q.d)
  {
    OutputTwo(q.a, q.b);
    OutputNext([q.a, q.b], q.c);
    OutputNext([q.a, q.b, q.c], q.d);
    assert [q.a, q.b] + [q.c] == [q.a, q.b, q.c] && [q.a, q.b, q.c] + [q.d] == WordsOf(q);
  }

  function Digest(m: seq<Byte>): seq<Byte> { Output(WordsOf(Chain(OnBlocks(), Initial(), Padded(m), |Padded(m)| / 64))) }

  // ---- the bit count ----

  lemma DivMod(x: nat, q: nat, r: nat)
    requires x == TWO32 * q + r && r < TWO32
    ensures x / TWO32 == q && x % TWO32 == r
  {
  }

  lemma ModSum(a: nat, b: nat)
    ensures (a % TWO32 + b) % TWO32 == (a + b) % TWO32
  {
    var q := a / TWO32;
    assert a + b == TWO32 * q + (a % TWO32 + b);
  }

  /** The two counter words after n more bytes: the low word wraps, and carries. */
  lemma CountBits(l: nat, n: nat)
    requires n < TWO32
    ensures var i0, more := 8 * l % TWO32, 8 * n % TWO32;
            var carry := if (i0 + more) % TWO32 < i0 then 1 else 0;
            && (i0 + more) % TWO32 == 8 * (l + n) % TWO32
            && 8 * l / TWO32 + carry + n / 0x2000_0000 == 8 * (l + n) / TWO32
  {
    var q, p := 8 * l / TWO32, n / 0x2000_0000;
    var i0, more := 8 * l % TWO32, 8 * n % TWO32;
    DivMod(8 * n, p, 8 * (n % 0x2000_0000));
    assert 8 * (l + n) == TWO32 * (q + p) + (i0 + more);
    if i0 + more < TWO32 {
      DivMod(8 * (l + n), q + p, i0 + more);
      DivMod(i0 + more, 0, i0 + more);
    } else {
      DivMod(8 * (l + n), q + p + 1, i0 + more - TWO32);
      DivMod(i0 + more, 1, i0 + more - TWO32);
    }
  }

  lemma BytesHeld(l: nat)
    ensures 8 * l % TWO32 / 8 % 64 == l % 64
  {
    var q, r := l / 0x2000_0000, l % 0x2000_0000;
    DivMod(8 * l, q, 8 * r);
    assert l == 64 * (0x80_0000 * q) + r;
  }

  // ---- the context ----

  /** The word loops of MD5Update and MD5Final. */
  method Gather(held: seq<Byte>, n: nat) returns (x: seq<Word>)
    requires n <= 16 && |held| == 64
    ensures |x| == n && x == Words(held)[..n]
  {
    x := [];
    for i := 0 to n
      invariant x == Words(held)[..i]
    {
      var ii := 4 * i;
      x := x + [WordOf(held[ii], held[ii + 1], held[ii + 2], held[ii + 3])];
    }
  }

  /** Transform on 32-bit words. */
  method TransformWords(buf: Quad<Word>, x: seq<Word>) returns (r: Quad<Word>)
    requires |x| == 16
    ensures r == StandardCompress(Alu32(), buf, x)
  {
    r := Transform(Alu32(), buf, x);
    AdditionIsLawful();
    CompressIsStandard(Alu32(), buf, x);
  }

  /** Transform a full buffer. */
  method Absorb(buf: Quad<Word>, held: seq<Byte>) returns (r: Quad<Word>)
    requires |held| == 64
    ensures r == OnBlocks()(buf, held)
  {
    var x := Gather(held, 16);
    assert x == Words(held);
    r := TransformWords(buf, x);
  }

  const PADDING: seq<Byte> := [0x80] + Zeros(63)

  lemma PaddingIsPrefix(n: nat)
    ensures PADDING[..if n % 64 < 56 then 56 - n % 64 else 120 - n % 64] == Padding(n)
  {
  }

  /** The words of the last block: 14 that were held, then the two counter words. */
  lemma LastWords(held: seq<Byte>, low: Word, high: Word)
    requires |held| == 64
    ensures Words(held[..56] + (BytesOf(low) + BytesOf(high))) == Words(held)[..14] + [low, high]
  {
    BytesOfWord(low);
    BytesOfWord(high);
    JoinLast(WordOf, held, BytesOf(low), BytesOf(high));
  }

  lemma JoinLast<B, W>(join: (B, B, B, B) -> W, held: seq<B>, low: seq<B>, high: seq<B>)
    requires |held| == 64 && |low| == |high| == 4
    ensures Groups(join, held[..56] + (low + high)) ==
            Groups(join, held)[..14] + [join(low[0], low[1], low[2], low[3]), join(high[0], high[1], high[2], high[3])]
  {
    GroupsConcat(join, held[..56], low + high);
    GroupsConcat(join, low, high);
    GroupsPrefix(join, held, 14);
    assert Groups(join, low) == [join(low[0], low[1], low[2], low[3])];
    assert Groups(join, high) == [join(high[0], high[1], high[2], high[3])];
  }

  class Context {
    var i0: nat               // number of bits modulo 2^64, low and high word
    var i1: nat
    var buf: Quad<Word>
    const input: array<Byte>
    const digest: array<Byte>
    ghost var msg: seq<Byte>  // what has been fed so far

    ghost predicate Valid()
      reads this, input
    {
      && input.Length == 64 && digest.Length == 16 && input != digest
      && i0 == 8 * |msg| % TWO32 && i1 == 8 * |msg| / TWO32 % TWO32
      && Tracks(OnBlocks(), Initial(), buf, input[..], msg)
    }

    /** MD5Init on a new context. */
    constructor ()
      ensures Valid() && msg == [] && fresh(input) && fresh(digest)
    {
      i0, i1, buf, msg := 0, 0, Quad(0x67452301, 0xefcdab89, 0x98badcfe, 0x10325476), [];
      input, digest := new Byte[64], new Byte[16];
    }

    /** MD5Init on a used context. */
    method Init()
      requires input.Length == 64 && digest.Length == 16 && input != digest
      modifies this
      ensures Valid() && msg == []
    {
      i0, i1, msg := 0, 0, [];
      buf := Quad(0x67452301, 0xefcdab89, 0x98badcfe, 0x10325476);
    }

    /** The loop body of MD5Update. */
    method Put(b: Byte, mdi: nat) returns (next: nat)
      requires input.Length == 64 && Tracks(OnBlocks(), Initial(), buf, input[..], msg) && mdi == |msg| % 64
      modifies this`buf, this`msg, input
      ensures msg == old(msg) + [b] && next == |msg| % 64
      ensures Tracks(OnBlocks(), Initial(), buf, input[..], msg)
    {
      if mdi < 63 {
        HoldByte(OnBlocks(), Initial(), buf, input[..], msg, b);
      } else {
        FillBlock(OnBlocks(), Initial(), buf, input[..], msg, b);
      }
      msg := msg + [b];
      input[mdi] := b;
      assert input[..] == old(input[..])[mdi := b];
      next := mdi + 1;
      if next == 64 {
        buf := Absorb(buf, input[..]);
        next := 0;
      }
    }

    /** The head of MD5Update: the bit count after n more bytes. */
    method CountMore(n: nat, ghost total: nat)
      requires total == |msg| + n
      requires i0 == 8 * |msg| % TWO32 && i1 == 8 * |msg| / TWO32 % TWO32 && n < TWO32
      modifies this`i0, this`i1
      ensures i0 == 8 * total % TWO32 && i1 == 8 * total / TWO32 % TWO32
    {
      CountBits(|msg|, n);
      ghost var high := 8 * |msg| / TWO32;
      var more := 8 * n % TWO32;
      if (i0 + more) % TWO32 < i0 {
        ModSum(high, 1);
        i1 := (i1 + 1) % TWO32;
        high := high + 1;
      }
      i0 := (i0 + more) % TWO32;
      ModSum(high, n / 0x2000_0000);
      i1 := (i1 + n / 0x2000_0000) % TWO32;
    }

    /** The loop of MD5Update. */
    method Feed(bytes: seq<Byte>, mdi0: nat)
      requires input.Length == 64 && Tracks(OnBlocks(), Initial(), buf, input[..], msg) && mdi0 == |msg| % 64
      modifies this`buf, this`msg, input
      ensures msg == old(msg) + bytes && Tracks(OnBlocks(), Initial(), buf, input[..], msg)
    {
      var mdi := mdi0;
      for k := 0 to |bytes|
        invariant Tracks(OnBlocks(), Initial(), buf, input[..], msg) && mdi == |msg| % 64
        invariant msg == old(msg) + bytes[..k]
      {
        TakeNext(old(msg), bytes, k);
        mdi := Put(bytes[k], mdi);
      }
      TakeAll(old(msg), bytes);
    }

    /** MD5Update. */
    method Update(bytes: seq<Byte>)
      requires Valid() && |bytes| < TWO32
      modifies this, input
      ensures Valid() && msg == old(msg) + bytes
    {
      BytesHeld(|msg|);
      var mdi := i0 / 8 % 64;
      CountMore(|bytes|, |msg + bytes|);
      Feed(bytes, mdi);
    }

    /** The last block of MD5Final: m has been padded to 56 bytes modulo 64. */
    method LastTransform(ghost padded: seq<Byte>, w14: Word, w15: Word)
      requires input.Length == 64 && Tracks(OnBlocks(), Initial(), buf, input[..], msg) && |msg| % 64 == 56
      requires padded == msg + (BytesOf(w14) + BytesOf(w15))
      modifies this`buf
      ensures buf == Chain(OnBlocks(), Initial(), padded, |padded| / 64)
    {
      var x := Gather(input[..], 14);
      LastWords(input[..], w14, w15);
      LastBlock(OnBlocks(), Initial(), buf, input[..], msg, BytesOf(w14) + BytesOf(w15));
      buf := TransformWords(buf, x + [w14, w15]);
    }

    method Store(at: nat, b: seq<Byte>)
      requires digest.Length == 16 && |b| == 4 && at + 4 <= 16
      modifies digest
      ensures digest[..at + 4] == old(digest[..at]) + b
    {
      digest[at], digest[at + 1], digest[at + 2], digest[at + 3] := b[0], b[1], b[2], b[3];
    }

    /** The last loop of MD5Final. */
    method StoreDigest()
      requires digest.Length == 16
      modifies digest
      ensures digest[..] == Output(WordsOf(buf))
    {
      var words := WordsOf(buf);
      for i := 0 to |words|
        invariant digest[..4 * i] == Output(words[..i])
      {
        assert words[..i + 1][..i] == words[..i];
        Store(4 * i, BytesOf(words[i]));
      }
      assert words[..|words|] == words && digest[..16] == digest[..];
    }

    /** The padding of MD5Final: always up to 56 bytes modulo 64. */
    method Pad()
      requires Valid()
      modifies this, input
      ensures Valid() && msg == old(msg) + Padding(|old(msg)|) && |msg| % 64 == 56
    {
      BytesHeld(|msg|);
      var mdi := i0 / 8 % 64;
      var padLen := if mdi < 56 then 56 - mdi else 120 - mdi;
      PaddingIsPrefix(|msg|);
      Update(PADDING[..padLen]);
    }

    /** MD5Final. */
    method Final()
      requires Valid()
      modifies this, input, digest
      ensures digest[..] == Digest(old(msg))
    {
      ghost var padded := Padded(msg);
      var w14, w15 := AsWord(i0), AsWord(i1);
      Pad();
      LastTransform(padded, w14, w15);
      StoreDigest();
    }
  }

  /** The padding is the shortest one that reaches 56 bytes modulo 64. */
  lemma PaddingIsShortest(n: nat, k: nat)
    requires 1 <= k && (n + k) % 64 == 56
    ensures |Padding(n)| <= k
  {
    var r := |Padding(n)|;
    assert (n + r) % 64 == 56 && r <= 64;
  }

  /** The first n pieces in one. */
  function Joined(pieces: seq<seq<Byte>>, n: nat): seq<Byte>
    requires n <= |pieces|
  {
    if n == 0 then [] else Joined(pieces, n - 1) + pieces[n - 1]
  }

  method FeedAll(context: Context, pieces: seq<seq<Byte>>)
    requires context.Valid() && context.msg == [] && forall i :: 0 <= i < |pieces| ==> |pieces[i]| < TWO32
    modifies context, context.input
    ensures context.Valid() && context.msg == Joined(pieces, |pieces|)
  {
    for i := 0 to |pieces|
      invariant context.Valid() && context.msg == Joined(pieces, i)
    {
      context.Update(pieces[i]);
    }
  }

  /** Whatever way a message is cut into pieces, the digest is that of the whole. */
  method DigestOf(pieces: seq<seq<Byte>>) returns (digest: seq<Byte>)
    requires forall i :: 0 <= i < |pieces| ==> |pieces[i]| < TWO32
    ensures digest == Digest(Joined(pieces, |pieces|))
  {
    var context := new Context();
    FeedAll(context, pieces);
    context.Final();
    digest := context.digest[..];
  }
}
