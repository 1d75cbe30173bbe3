/** The block transform of motobox/md5sum.c, and the 64-step loop of section 3.4 of RFC 1321 that
    it unrolls. Both are written over an arithmetic unit: that the unrolled rounds are the loop
    needs no property of it, and that the macros may add in their own order needs an addition
    that associates and commutes. */
module Md5Transform {

  /** The word operations of MD5. */
  datatype Alu<!W> = Alu(
    word: bv32 -> W,             // a constant
    add: (W, W) -> W,
    rotate: (W, bv32) -> W,
    f: (W, W, W) -> W,
    g: (W, W, W) -> W,
    h: (W, W, W) -> W,
    i: (W, W, W) -> W)

  /** The four state words. */
  datatype Quad<W> = Quad(a: W, b: W, c: W, d: W)

  // ---- the standard ----

  /** Table T of section 3.4 for operation k of round r: the integer part of 4294967296 times
      |sin(16 r + k + 1)|, r and k from 0. */
  function T(r: nat, k: nat): bv32
    requires k < 16
  {
    if r == 0 then T1(k) else if r == 1 then T2(k) else if r == 2 then T3(k) else T4(k)
  }

  function T1(k: nat): bv32
    requires k < 16
  {
    match k
    case 0 => 0xd76aa478
    case 1 => 0xe8c7b756
    case 2 => 0x242070db
    case 3 => 0xc1bdceee
    case 4 => 0xf57c0faf
    case 5 => 0x4787c62a
    case 6 => 0xa8304613
    case 7 => 0xfd469501
    case 8 => 0x698098d8
    case 9 => 0x8b44f7af
    case 10 => 0xffff5bb1
    case 11 => 0x895cd7be
    case 12 => 0x6b901122
    case 13 => 0xfd987193
    case 14 => 0xa679438e
    case _ => 0x49b40821
  }

  function T2(k: nat): bv32
    requires k < 16
  {
    match k
    case 0 => 0xf61e2562
    case 1 => 0xc040b340
    case 2 => 0x265e5a51
    case 3 => 0xe9b6c7aa
    case 4 => 0xd62f105d
    case 5 => 0x02441453
    case 6 => 0xd8a1e681
    case 7 => 0xe7d3fbc8
    case 8 => 0x21e1cde6
    case 9 => 0xc33707d6
    case 10 => 0xf4d50d87
    case 11 => 0x455a14ed
    case 12 => 0xa9e3e905
    case 13 => 0xfcefa3f8
    case 14 => 0x676f02d9
    case _ => 0x8d2a4c8a
  }

  function T3(k: nat): bv32
    requires k < 16
  {
    match k
    case 0 => 0xfffa3942
    case 1 => 0x8771f681
    case 2 => 0x6d9d6122
    case 3 => 0xfde5380c
    case 4 => 0xa4beea44
    case 5 => 0x4bdecfa9
    case 6 => 0xf6bb4b60
    case 7 => 0xbebfbc70
    case 8 => 0x289b7ec6
    case 9 => 0xeaa127fa
    case 10 => 0xd4ef3085
    case 11 => 0x04881d05
    case 12 => 0xd9d4d039
    case 13 => 0xe6db99e5
    case 14 => 0x1fa27cf8
    case _ => 0xc4ac5665
  }

  function T4(k: nat): bv32
    requires k < 16
  {
    match k
    case 0 => 0xf4292244
    case 1 => 0x432aff97
    case 2 => 0xab9423a7
    case 3 => 0xfc93a039
    case 4 => 0x655b59c3
    case 5 => 0x8f0ccc92
    case 6 => 0xffeff47d
    case 7 => 0x85845dd1
    case 8 => 0x6fa87e4f
    case 9 => 0xfe2ce6e0
    case 10 => 0xa3014314
    case 11 => 0x4e0811a1
    case 12 => 0xf7537e82
    case 13 => 0xbd3af235
    case 14 => 0x2ad7d2bb
    case _ => 0xeb86d391
  }

  function Pick(k: nat, s0: bv32, s1: bv32, s2: bv32, s3: bv32): bv32 {
    if k == 0 then s0 else if k == 1 then s1 else if k == 2 then s2 else s3
  }

  /** Its rotation. */
  function Shift(r: nat, k: nat): bv32 {
    if r == 0 then Pick(k % 4, 7, 12, 17, 22)
    else if r == 1 then Pick(k % 4, 5, 9, 14, 20)
    else if r == 2 then Pick(k % 4, 4, 11, 16, 23)
    else Pick(k % 4, 6, 10, 15, 21)
  }

  /** Its block word. */
  function WordIndex(r: nat, k: nat): (w: nat)
    requires k < 16
    ensures w < 16
  {
    if r == 0 then k else if r == 1 then K2(k) else if r == 2 then K3(k) else K4(k)
  }

  function K2(k: nat): nat {
    match k
    case 0 => 1
    case 1 => 6
    case 2 => 11
    case 3 => 0
    case 4 => 5
    case 5 => 10
    case 6 => 15
    case 7 => 4
    case 8 => 9
    case 9 => 14
    case 10 => 3
    case 11 => 8
    case 12 => 13
    case 13 => 2
    case 14 => 7
    case _ => 12
  }

  function K3(k: nat): nat {
    match k
    case 0 => 5
    case 1 => 8
    case 2 => 11
    case 3 => 14
    case 4 => 1
    case 5 => 4
    case 6 => 7
    case 7 => 10
    case 8 => 13
    case 9 => 0
    case 10 => 3
    case 11 => 6
    case 12 => 9
    case 13 => 12
    case 14 => 15
    case _ => 2
  }

  function K4(k: nat): nat {
    match k
    case 0 => 0
    case 1 => 7
    case 2 => 14
    case 3 => 5
    case 4 => 12
    case 5 => 3
    case 6 => 10
    case 7 => 1
    case 8 => 8
    case 9 => 15
    case 10 => 6
    case 11 => 13
    case 12 => 4
    case 13 => 11
    case 14 => 2
    case _ => 9
  }

  /** The words of a round in closed form. */
  lemma WordIndexFormula(r: nat, k: nat)
    requires r < 4 && k < 16
    ensures WordIndex(r, k) == if r == 0 then k else if r == 1 then (5 * k + 1) % 16 else if r == 2 then (3 * k + 5) % 16 else 7 * k % 16
  {
  }

  function Mix<W>(alu: Alu<W>, r: nat, x: W, y: W, z: W): W {
    if r == 0 then alu.f(x, y, z) else if r == 1 then alu.g(x, y, z) else if r == 2 then alu.h(x, y, z) else alu.i(x, y, z)
  }

  /** The new value of a: b + ((a + m + x + t) <<< s). */
  function StandardStep<W>(alu: Alu<W>, a: W, m: W, b: W, x: W, s: bv32, t: bv32): W {
    alu.add(b, alu.rotate(alu.add(alu.add(alu.add(a, m), x), alu.word(t)), s))
  }

  /** Operation k of round r; afterwards the words change roles. */
  function StandardOperation<W>(alu: Alu<W>, q: Quad<W>, x: seq<W>, r: nat, k: nat): Quad<W>
    requires k < 16 && |x| == 16
  {
    Quad(q.d, StandardStep(alu, q.a, Mix(alu, r, q.b, q.c, q.d), q.b, x[WordIndex(r, k)], Shift(r, k), T(r, k)), q.b, q.c)
  }

  function RoundOf(n: nat): nat { if n < 16 then 0 else if n < 32 then 1 else if n < 48 then 2 else 3 }

  /** The first n operations. */
  function StandardOperations<W>(alu: Alu<W>, q: Quad<W>, x: seq<W>, n: nat): Quad<W>
    requires n <= 64 && |x| == 16
  {
    if n == 0 then q
    else StandardOperation(alu, StandardOperations(alu, q, x, n - 1), x, RoundOf(n - 1), n - 1 - 16 * RoundOf(n - 1))
  }

  function Sum<W>(alu: Alu<W>, p: Quad<W>, q: Quad<W>): Quad<W> {
    Quad(alu.add(p.a, q.a), alu.add(p.b, q.b), alu.add(p.c, q.c), alu.add(p.d, q.d))
  }

  /** One block: the 64 operations, four for each word, to which the old state is added. */
  function StandardCompress<W>(alu: Alu<W>, q: Quad<W>, x: seq<W>): Quad<W>
    requires |x| == 16
  {
    Sum(alu, StandardOperations(alu, q, x, 4 * |x|), q)
  }

  // ---- the same with the additions in the order of the macros ----

  function Step<W>(alu: Alu<W>, a: W, m: W, b: W, x: W, s: bv32, t: bv32): W {
    alu.add(alu.rotate(alu.add(a, alu.add(alu.add(m, x), alu.word(t))), s), b)
  }

  function Operation<W>(alu: Alu<W>, q: Quad<W>, x: seq<W>, r: nat, k: nat): Quad<W>
    requires k < 16 && |x| == 16
  {
    Quad(q.d, Step(alu, q.a, Mix(alu, r, q.b, q.c, q.d), q.b, x[WordIndex(r, k)], Shift(r, k), T(r, k)), q.b, q.c)
  }

  function Operations<W>(alu: Alu<W>, q: Quad<W>, x: seq<W>, n: nat): Quad<W>
    requires n <= 64 && |x| == 16
  {
    if n == 0 then q else Operation(alu, Operations(alu, q, x, n - 1), x, RoundOf(n - 1), n - 1 - 16 * RoundOf(n - 1))
  }

  function Compress<W>(alu: Alu<W>, q: Quad<W>, x: seq<W>): Quad<W>
    requires |x| == 16
  {
    Sum(alu, q, Operations(alu, q, x, 4 * |x|))
  }

  /** Addition commutes and associates. */
  ghost predicate Lawful<W(!new)>(alu: Alu<W>) {
    && (forall x, y :: alu.add(x, y) == alu.add(y, x))
    && (forall x, y, z :: alu.add(alu.add(x, y), z) == alu.add(x, alu.add(y, z)))
  }

  lemma AdditionOrder<W(!new)>(alu: Alu<W>, a: W, m: W, b: W, x: W, s: bv32, t: bv32)
    requires Lawful(alu)
    ensures Step(alu, a, m, b, x, s, t) == StandardStep(alu, a, m, b, x, s, t)
  {
    var w := alu.word(t);
    assert alu.add(a, alu.add(alu.add(m, x), w)) == alu.add(alu.add(alu.add(a, m), x), w) by {
      assert alu.add(alu.add(a, m), x) == alu.add(a, alu.add(m, x));
    }
  }

  lemma {:induction false} OperationsAreStandard<W(!new)>(alu: Alu<W>, q: Quad<W>, x: seq<W>, n: nat)
    requires Lawful(alu) && n <= 64 && |x| == 16
    ensures Operations(alu, q, x, n) == StandardOperations(alu, q, x, n)
  {
    if n > 0 {
      OperationsAreStandard(alu, q, x, n - 1);
      OperationIsStandard(alu, StandardOperations(alu, q, x, n - 1), x, RoundOf(n - 1), n - 1 - 16 * RoundOf(n - 1));
    }
  }

  lemma OperationIsStandard<W(!new)>(alu: Alu<W>, q: Quad<W>, x: seq<W>, r: nat, k: nat)
    requires Lawful(alu) && k < 16 && |x| == 16
    ensures Operation(alu, q, x, r, k) == StandardOperation(alu, q, x, r, k)
  {
    AdditionOrder(alu, q.a, Mix(alu, r, q.b, q.c, q.d), q.b, x[WordIndex(r, k)], Shift(r, k), T(r, k));
  }

  /** On such words the order of the additions does not matter to a whole block. */
  lemma CompressIsStandard<W(!new)>(alu: Alu<W>, q: Quad<W>, x: seq<W>)
    requires Lawful(alu) && |x| == 16
    ensures Compress(alu, q, x) == StandardCompress(alu, q, x)
  {
    OperationsAreStandard(alu, q, x, 4 * |x|);
  }

  /** The first k operations of round r. */
  function Round<W>(alu: Alu<W>, q: Quad<W>, x: seq<W>, r: nat, k: nat): Quad<W>
    requires k <= 16 && |x| == 16
  {
    if k == 0 then q else Operation(alu, Round(alu, q, x, r, k - 1), x, r, k - 1)
  }

  /** Round r starts at operation i. */
  lemma {:induction false} RoundIsOperations<W>(alu: Alu<W>, q: Quad<W>, x: seq<W>, r: nat, i: nat, k: nat)
    requires r < 4 && i == 16 * r && k <= 16 && |x| == 16
    ensures Operations(alu, q, x, i + k) == Round(alu, Operations(alu, q, x, i), x, r, k)
  {
    if k > 0 {
      RoundIsOperations(alu, q, x, r, i, k - 1);
      NextOperation(alu, q, x, r, i + k - 1, k - 1);
    }
  }

  lemma NextOperation<W>(alu: Alu<W>, q: Quad<W>, x: seq<W>, r: nat, n: nat, k: nat)
    requires r < 4 && k < 16 && n == 16 * r + k && |x| == 16
    ensures Operations(alu, q, x, n + 1) == Operation(alu, Operations(alu, q, x, n), x, r, k)
  {
    RoundAndPlace(r, n, k);
  }

  lemma RoundAndPlace(r: nat, n: nat, k: nat)
    requires r < 4 && k < 16 && n == 16 * r + k
    ensures RoundOf(n) == r && n - 16 * RoundOf(n) == k
  {
  }

  // ---- the program: macros on variables that keep their roles ----

  method FF<W>(alu: Alu<W>, a0: W, b: W, c: W, d: W, x: W, s: bv32, ac: bv32) returns (a: W)
    ensures a == Step(alu, a0, alu.f(b, c, d), b, x, s, ac)
  {
    a := alu.add(a0, alu.add(alu.add(alu.f(b, c, d), x), alu.word(ac)));
    a := alu.rotate(a, s);
    a := alu.add(a, b);
  }

  method GG<W>(alu: Alu<W>, a0: W, b: W, c: W, d: W, x: W, s: bv32, ac: bv32) returns (a: W)
    ensures a == Step(alu, a0, alu.g(b, c, d), b, x, s, ac)
  {
    a := alu.add(a0, alu.add(alu.add(alu.g(b, c, d), x), alu.word(ac)));
    a := alu.rotate(a, s);
    a := alu.add(a, b);
  }

  method HH<W>(alu: Alu<W>, a0: W, b: W, c: W, d: W, x: W, s: bv32, ac: bv32) returns (a: W)
    ensures a == Step(alu, a0, alu.h(b, c, d), b, x, s, ac)
  {
    a := alu.add(a0, alu.add(alu.add(alu.h(b, c, d), x), alu.word(ac)));
    a := alu.rotate(a, s);
    a := alu.add(a, b);
  }

  method II<W>(alu: Alu<W>, a0: W, b: W, c: W, d: W, x: W, s: bv32, ac: bv32) returns (a: W)
    ensures a == Step(alu, a0, alu.i(b, c, d), b, x, s, ac)
  {
    a := alu.add(a0, alu.add(alu.add(alu.i(b, c, d), x), alu.word(ac)));
    a := alu.rotate(a, s);
    a := alu.add(a, b);
  }

  method Round1<W>(alu: Alu<W>, q: Quad<W>, x: seq<W>) returns (r: Quad<W>)
    requires |x| == 16
    ensures r == Round(alu, q, x, 0, |x|)
  {
    var a, b, c, d := q.a, q.b, q.c, q.d;
    ghost var n := |x| - 16;
    a := FF(alu, a, b, c, d, x[0], 7, 3614090360);
    assert Round(alu, q, x, 0, n + 1) == Quad(d, a, b, c);
    d := FF(alu, d, a, b, c, x[1], 12, 3905402710);
    assert Round(alu, q, x, 0, n + 2) == Quad(c, d, a, b);
    c := FF(alu, c, d, a, b, x[2], 17, 606105819);
    assert Round(alu, q, x, 0, n + 3) == Quad(b, c, d, a);
    b := FF(alu, b, c, d, a, x[3], 22, 3250441966);
    assert Round(alu, q, x, 0, n + 4) == Quad(a, b, c, d);
    a := FF(alu, a, b, c, d, x[4], 7, 4118548399);
    assert Round(alu, q, x, 0, n + 5) == Quad(d, a, b, c);
    d := FF(alu, d, a, b, c, x[5], 12, 1200080426);
    assert Round(alu, q, x, 0, n + 6) == Quad(c, d, a, b);
    c := FF(alu, c, d, a, b, x[6], 17, 2821735955);
    assert Round(alu, q, x, 0, n + 7) == Quad(b, c, d, a);
    b := FF(alu, b, c, d, a, x[7], 22, 4249261313);
    assert Round(alu, q, x, 0, n + 8) == Quad(a, b, c, d);
    a := FF(alu, a, b, c, d, x[8], 7, 1770035416);
    assert Round(alu, q, x, 0, n + 9) == Quad(d, a, b, c);
    d := FF(alu, d, a, b, c, x[9], 12, 2336552879);
    assert Round(alu, q, x, 0, n + 10) == Quad(c, d, a, b);
    c := FF(alu, c, d, a, b, x[10], 17, 4294925233);
    assert Round(alu, q, x, 0, n + 11) == Quad(b, c, d, a);
    b := FF(alu, b, c, d, a, x[11], 22, 2304563134);
    assert Round(alu, q, x, 0, n + 12) == Quad(a, b, c, d);
    a := FF(alu, a, b, c, d, x[12], 7, 1804603682);
    assert Round(alu, q, x, 0, n + 13) == Quad(d, a, b, c);
    d := FF(alu, d, a, b, c, x[13], 12, 4254626195);
    assert Round(alu, q, x, 0, n + 14) == Quad(c, d, a, b);
    c := FF(alu, c, d, a, b, x[14], 17, 2792965006);
    assert Round(alu, q, x, 0, n + 15) == Quad(b, c, d, a);
    b := FF(alu, b, c, d, a, x[15], 22, 1236535329);
    assert Round(alu, q, x, 0, n + 16) == Quad(a, b, c, d);
    r := Quad(a, b, c, d);
  }

  method Round2<W>(alu: Alu<W>, q: Quad<W>, x: seq<W>) returns (r: Quad<W>)
    requires |x| == 16
    ensures r == Round(alu, q, x, 1, |x|)
  {
    var a, b, c, d := q.a, q.b, q.c, q.d;
    ghost var n := |x| - 16;
    a := GG(alu, a, b, c, d, x[1], 5, 4129170786);
    assert Round(alu, q, x, 1, n + 1) == Quad(d, a, b, c);
    d := GG(alu, d, a, b, c, x[6], 9, 3225465664);
    assert Round(alu, q, x, 1, n + 2) == Quad(c, d, a, b);
    c := GG(alu, c, d, a, b, x[11], 14, 643717713);
    assert Round(alu, q, x, 1, n + 3) == Quad(b, c, d, a);
    b := GG(alu, b, c, d, a, x[0], 20, 3921069994);
    assert Round(alu, q, x, 1, n + 4) == Quad(a, b, c, d);
    a := GG(alu, a, b, c, d, x[5], 5, 3593408605);
    assert Round(alu, q, x, 1, n + 5) == Quad(d, a, b, c);
    d := GG(alu, d, a, b, c, x[10], 9, 38016083);
    assert Round(alu, q, x, 1, n + 6) == Quad(c, d, a, b);
    c := GG(alu, c, d, a, b, x[15], 14, 3634488961);
    assert Round(alu, q, x, 1, n + 7) == Quad(b, c, d, a);
    b := GG(alu, b, c, d, a, x[4], 20, 3889429448);
    assert Round(alu, q, x, 1, n + 8) == Quad(a, b, c, d);
    a := GG(alu, a, b, c, d, x[9], 5, 568446438);
    assert Round(alu, q, x, 1, n + 9) == Quad(d, a, b, c);
    d := GG(alu, d, a, b, c, x[14], 9, 3275163606);
    assert Round(alu, q, x, 1, n + 10) == Quad(c, d, a, b);
    c := GG(alu, c, d, a, b, x[3], 14, 4107603335);
    assert Round(alu, q, x, 1, n + 11) == Quad(b, c, d, a);
    b := GG(alu, b, c, d, a, x[8], 20, 1163531501);
    assert Round(alu, q, x, 1, n + 12) == Quad(a, b, c, d);
    a := GG(alu, a, b, c, d, x[13], 5, 2850285829);
    assert Round(alu, q, x, 1, n + 13) == Quad(d, a, b, c);
    d := GG(alu, d, a, b, c, x[2], 9, 4243563512);
    assert Round(alu, q, x, 1, n + 14) == Quad(c, d, a, b);
    c := GG(alu, c, d, a, b, x[7], 14, 1735328473);
    assert Round(alu, q, x, 1, n + 15) == Quad(b, c, d, a);
    b := GG(alu, b, c, d, a, x[12], 20, 2368359562);
    assert Round(alu, q, x, 1, n + 16) == Quad(a, b, c, d);
    r := Quad(a, b, c, d);
  }

  method Round3<W>(alu: Alu<W>, q: Quad<W>, x: seq<W>) returns (r: Quad<W>)
    requires |x| == 16
    ensures r == Round(alu, q, x, 2, |x|)
  {
    var a, b, c, d := q.a, q.b, q.c, q.d;
    ghost var n := |x| - 16;
    a := HH(alu, a, b, c, d, x[5], 4, 4294588738);
    assert Round(alu, q, x, 2, n + 1) == Quad(d, a, b, c);
    d := HH(alu, d, a, b, c, x[8], 11, 2272392833);
    assert Round(alu, q, x, 2, n + 2) == Quad(c, d, a, b);
    c := HH(alu, c, d, a, b, x[11], 16, 1839030562);
    assert Round(alu, q, x, 2, n + 3) == Quad(b, c, d, a);
    b := HH(alu, b, c, d, a, x[14], 23, 4259657740);
    assert Round(alu, q, x, 2, n + 4) == Quad(a, b, c, d);
    a := HH(alu, a, b, c, d, x[1], 4, 2763975236);
    assert Round(alu, q, x, 2, n + 5) == Quad(d, a, b, c);
    d := HH(alu, d, a, b, c, x[4], 11, 1272893353);
    assert Round(alu, q, x, 2, n + 6) == Quad(c, d, a, b);
    c := HH(alu, c, d, a, b, x[7], 16, 4139469664);
    assert Round(alu, q, x, 2, n + 7) == Quad(b, c, d, a);
    b := HH(alu, b, c, d, a, x[10], 23, 3200236656);
    assert Round(alu, q, x, 2, n + 8) == Quad(a, b, c, d);
    a := HH(alu, a, b, c, d, x[13], 4, 681279174);
    assert Round(alu, q, x, 2, n + 9) == Quad(d, a, b, c);
    d := HH(alu, d, a, b, c, x[0], 11, 3936430074);
    assert Round(alu, q, x, 2, n + 10) == Quad(c, d, a, b);
    c := HH(alu, c, d, a, b, x[3], 16, 3572445317);
    assert Round(alu, q, x, 2, n + 11) == Quad(b, c, d, a);
    b := HH(alu, b, c, d, a, x[6], 23, 76029189);
    assert Round(alu, q, x, 2, n + 12) == Quad(a, b, c, d);
    a := HH(alu, a, b, c, d, x[9], 4, 3654602809);
    assert Round(alu, q, x, 2, n + 13) == Quad(d, a, b, c);
    d := HH(alu, d, a, b, c, x[12], 11, 3873151461);
    assert Round(alu, q, x, 2, n + 14) == Quad(c, d, a, b);
    c := HH(alu, c, d, a, b, x[15], 16, 530742520);
    assert Round(alu, q, x, 2, n + 15) == Quad(b, c, d, a);
    b := HH(alu, b, c, d, a, x[2], 23, 3299628645);
    assert Round(alu, q, x, 2, n + 16) == Quad(a, b, c, d);
    r := Quad(a, b, c, d);
  }

  method Round4<W>(alu: Alu<W>, q: Quad<W>, x: seq<W>) returns (r: Quad<W>)
    requires |x| == 16
    ensures r == Round(alu, q, x, 3, |x|)
  {
    var a, b, c, d := q.a, q.b, q.c, q.d;
    ghost var n := |x| - 16;
    a := II(alu, a, b, c, d, x[0], 6, 4096336452);
    assert Round(alu, q, x, 3, n + 1) == Quad(d, a, b, c);
    d := II(alu, d, a, b, c, x[7], 10, 1126891415);
    assert Round(alu, q, x, 3, n + 2) == Quad(c, d, a, b);
    c := II(alu, c, d, a, b, x[14], 15, 2878612391);
    assert Round(alu, q, x, 3, n + 3) == Quad(b, c, d, a);
    b := II(alu, b, c, d, a, x[5], 21, 4237533241);
    assert Round(alu, q, x, 3, n + 4) == Quad(a, b, c, d);
    a := II(alu, a, b, c, d, x[12], 6, 1700485571);
    assert Round(alu, q, x, 3, n + 5) == Quad(d, a, b, c);
    d := II(alu, d, a, b, c, x[3], 10, 2399980690);
    assert Round(alu, q, x, 3, n + 6) == Quad(c, d, a, b);
    c := II(alu, c, d, a, b, x[10], 15, 4293915773);
    assert Round(alu, q, x, 3, n + 7) == Quad(b, c, d, a);
    b := II(alu, b, c, d, a, x[1], 21, 2240044497);
    assert Round(alu, q, x, 3, n + 8) == Quad(a, b, c, d);
    a := II(alu, a, b, c, d, x[8], 6, 1873313359);
    assert Round(alu, q, x, 3, n + 9) == Quad(d, a, b, c);
    d := II(alu, d, a, b, c, x[15], 10, 4264355552);
    assert Round(alu, q, x, 3, n + 10) == Quad(c, d, a, b);
    c := II(alu, c, d, a, b, x[6], 15, 2734768916);
    assert Round(alu, q, x, 3, n + 11) == Quad(b, c, d, a);
    b := II(alu, b, c, d, a, x[13], 21, 1309151649);
    assert Round(alu, q, x, 3, n + 12) == Quad(a, b, c, d);
    a := II(alu, a, b, c, d, x[4], 6, 4149444226);
    assert Round(alu, q, x, 3, n + 13) == Quad(d, a, b, c);
    d := II(alu, d, a, b, c, x[11], 10, 3174756917);
    assert Round(alu, q, x, 3, n + 14) == Quad(c, d, a, b);
    c := II(alu, c, d, a, b, x[2], 15, 718787259);
    assert Round(alu, q, x, 3, n + 15) == Quad(b, c, d, a);
    b := II(alu, b, c, d, a, x[9], 21, 3951481745);
    assert Round(alu, q, x, 3, n + 16) == Quad(a, b, c, d);
    r := Quad(a, b, c, d);
  }

  lemma FourRounds<W>(alu: Alu<W>, q: Quad<W>, x: seq<W>, n: nat)
    requires n == |x| == 16
    ensures Operations(alu, q, x, 4 * n) ==
            Round(alu, Round(alu, Round(alu, Round(alu, q, x, 0, n), x, 1, n), x, 2, n), x, 3, n)
  {
    HalfTheRounds(alu, q, x, n);
    RoundIsOperations(alu, q, x, 2, 2 * n, n);
    RoundIsOperations(alu, q, x, 3, 3 * n, n);
  }

  lemma HalfTheRounds<W>(alu: Alu<W>, q: Quad<W>, x: seq<W>, n: nat)
    requires n == |x| == 16
    ensures Operations(alu, q, x, 2 * n) == Round(alu, Round(alu, q, x, 0, n), x, 1, n)
  {
    RoundIsOperations(alu, q, x, 0, n - 16, n);
    RoundIsOperations(alu, q, x, 1, n, n);
  }

  /** Transform: the unrolled rounds do what the loop of the standard does. */
  method Transform<W>(alu: Alu<W>, buf: Quad<W>, x: seq<W>) returns (r: Quad<W>)
    requires |x| == 16
    ensures r == Compress(alu, buf, x)
  {
    var q1 := Round1(alu, buf, x);
    var q2 := Round2(alu, q1, x);
    var q3 := Round3(alu, q2, x);
    var q4 := Round4(alu, q3, x);
    FourRounds(alu, buf, x, |x|);
    r := Sum(alu, buf, q4);
  }
}
