/** The first example of the test suite in appendix A.5 of RFC 1321, worked out operation by
    operation: the digest of the empty message. It checks the constants, the functions and the order
    of the words in Md5 and Md5Transform against the standard's own answer. */
module Md5Example {
  import opened Md5Transform
  import opened Chaining
  import opened Md5

  /** The block of the empty message: a 1 bit, then zeros. */
  predicate Empty(x: seq<Word>) { |x| == 16 && x[0] == 0x80 && forall i :: 1 <= i < 16 ==> x[i] == 0 }

  /** A trail of states, each one operation after the one before, leads to its end. */
  lemma {:induction false} TrailLeads<W>(alu: Alu<W>, x: seq<W>, trail: nat -> Quad<W>, n: nat)
    requires |x| == 16 && n <= 64
    requires forall i: nat :: i < 64 ==> OneOn(alu, x, trail(i), i, trail(i + 1))
    ensures StandardOperations(alu, trail(0), x, n) == trail(n)
  {
    if n > 0 {
      TrailLeads(alu, x, trail, n - 1);
      assert OneOn(alu, x, trail(n - 1), n - 1, trail(n));
    }
  }

  /** Operation n leads from p to q. */
  predicate OneOn<W(==)>(alu: Alu<W>, x: seq<W>, p: Quad<W>, n: nat, q: Quad<W>)
    requires |x| == 16 && n < 64
  {
    StandardOperation(alu, p, x, RoundOf(n), n - 16 * RoundOf(n)) == q
  }

  /** The state after n operations on that block. */
  function State(n: nat): Quad<Word> {
    match n
    case 0 => Quad(0x67452301, 0xefcdab89, 0x98badcfe, 0x10325476)
    case 1 => Quad(0x10325476, 0xa5202774, 0xefcdab89, 0x98badcfe)
    case 2 => Quad(0x98badcfe, 0xf59592dd, 0xa5202774, 0xefcdab89)
    case 3 => Quad(0xefcdab89, 0xe7f06b23, 0xf59592dd, 0xa5202774)
    case 4 => Quad(0xa5202774, 0x1b163203, 0xe7f06b23, 0xf59592dd)
    case 5 => Quad(0xf59592dd, 0x32033344, 0x1b163203, 0xe7f06b23)
    case 6 => Quad(0xe7f06b23, 0x2f35d494, 0x32033344, 0x1b163203)
    case 7 => Quad(0x1b163203, 0xf5b158db, 0x2f35d494, 0x32033344)
    case 8 => Quad(0x32033344, 0x9bc13ce9, 0xf5b158db, 0x2f35d494)
    case 9 => Quad(0x2f35d494, 0x3893b991, 0x9bc13ce9, 0xf5b158db)
    case 10 => Quad(0xf5b158db, 0xfce4a312, 0x3893b991, 0x9bc13ce9)
    case 11 => Quad(0x9bc13ce9, 0xe1ef0576, 0xfce4a312, 0x3893b991)
    case 12 => Quad(0x3893b991, 0x70768a29, 0xe1ef0576, 0xfce4a312)
    case 13 => Quad(0xfce4a312, 0xf56c7cf1, 0x70768a29, 0xe1ef0576)
    case 14 => Quad(0xe1ef0576, 0x374943a7, 0xf56c7cf1, 0x70768a29)
    case 15 => Quad(0x70768a29, 0x5aa53f75, 0x374943a7, 0xf56c7cf1)
    case 16 => Quad(0xf56c7cf1, 0xd6819c6a, 0x5aa53f75, 0x374943a7)
    case 17 => Quad(0x374943a7, 0x1c7d7513, 0xd6819c6a, 0x5aa53f75)
    case 18 => Quad(0x5aa53f75, 0x7bd57a3a, 0x1c7d7513, 0xd6819c6a)
    case 19 => Quad(0xd6819c6a, 0xc095f13a, 0x7bd57a3a, 0x1c7d7513)
    case 20 => Quad(0x1c7d7513, 0xbd782e17, 0xc095f13a, 0x7bd57a3a)
    case 21 => Quad(0x7bd57a3a, 0x3d1e3e6c, 0xbd782e17, 0xc095f13a)
    case 22 => Quad(0xc095f13a, 0x68b7b3e3, 0x3d1e3e6c, 0xbd782e17)
    case 23 => Quad(0xbd782e17, 0xeb41643e, 0x68b7b3e3, 0x3d1e3e6c)
    case 24 => Quad(0x3d1e3e6c, 0xe422531a, 0xeb41643e, 0x68b7b3e3)
    case 25 => Quad(0x68b7b3e3, 0x306ec122, 0xe422531a, 0xeb41643e)
    case 26 => Quad(0xeb41643e, 0xd28c77c2, 0x306ec122, 0xe422531a)
    case 27 => Quad(0xe422531a, 0xa3c663da, 0xd28c77c2, 0x306ec122)
    case 28 => Quad(0x306ec122, 0xa0572807, 0xa3c663da, 0xd28c77c2)
    case 29 => Quad(0xd28c77c2, 0x13707036, 0xa0572807, 0xa3c663da)
    case 30 => Quad(0xa3c663da, 0xae7813db, 0x13707036, 0xa0572807)
    case 31 => Quad(0xa0572807, 0x1c31c384, 0xae7813db, 0x13707036)
    case 32 => Quad(0x13707036, 0xa2205f1f, 0x1c31c384, 0xae7813db)
    case 33 => Quad(0xae7813db, 0xdf63eaa1, 0xa2205f1f, 0x1c31c384)
    case 34 => Quad(0x1c31c384, 0xc3689f5b, 0xdf63eaa1, 0xa2205f1f)
    case 35 => Quad(0xa2205f1f, 0x12f3e755, 0xc3689f5b, 0xdf63eaa1)
    case 36 => Quad(0xdf63eaa1, 0x004b6669, 0x12f3e755, 0xc3689f5b)
    case 37 => Quad(0xc3689f5b, 0x5f7a9b2e, 0x004b6669, 0x12f3e755)
    case 38 => Quad(0x12f3e755, 0xabc34e16, 0x5f7a9b2e, 0x004b6669)
    case 39 => Quad(0x004b6669, 0x91ca4cb7, 0xabc34e16, 0x5f7a9b2e)
    case 40 => Quad(0x5f7a9b2e, 0xc5dc8c15, 0x91ca4cb7, 0xabc34e16)
    case 41 => Quad(0xabc34e16, 0x4497169d, 0xc5dc8c15, 0x91ca4cb7)
    case 42 => Quad(0x91ca4cb7, 0x76fd93d4, 0x4497169d, 0xc5dc8c15)
    case 43 => Quad(0xc5dc8c15, 0xfd95f243, 0x76fd93d4, 0x4497169d)
    case 44 => Quad(0x4497169d, 0x0fe32453, 0xfd95f243, 0x76fd93d4)
    case 45 => Quad(0x76fd93d4, 0x3f55edfd, 0x0fe32453, 0xfd95f243)
    case 46 => Quad(0xfd95f243, 0x22a31f54, 0x3f55edfd, 0x0fe32453)
    case 47 => Quad(0x0fe32453, 0x68d84ea2, 0x22a31f54, 0x3f55edfd)
    case 48 => Quad(0x3f55edfd, 0xca7d2dbd, 0x68d84ea2, 0x22a31f54)
    case 49 => Quad(0x22a31f54, 0x93aa2577, 0xca7d2dbd, 0x68d84ea2)
    case 50 => Quad(0x68d84ea2, 0x1688dc85, 0x93aa2577, 0xca7d2dbd)
    case 51 => Quad(0xca7d2dbd, 0xcd85b8cb, 0x1688dc85, 0x93aa2577)
    case 52 => Quad(0x93aa2577, 0x561e0689, 0xcd85b8cb, 0x1688dc85)
    case 53 => Quad(0x1688dc85, 0x5625a114, 0x561e0689, 0xcd85b8cb)
    case 54 => Quad(0xcd85b8cb, 0x3450f42b, 0x5625a114, 0x561e0689)
    case 55 => Quad(0x561e0689, 0x392ad0d0, 0x3450f42b, 0x5625a114)
    case 56 => Quad(0x5625a114, 0x1e77fa61, 0x392ad0d0, 0x3450f42b)
    case 57 => Quad(0x3450f42b, 0x474a9c8c, 0x1e77fa61, 0x392ad0d0)
    case 58 => Quad(0x392ad0d0, 0xdfce00bc, 0x474a9c8c, 0x1e77fa61)
    case 59 => Quad(0x1e77fa61, 0x36594b14, 0xdfce00bc, 0x474a9c8c)
    case 60 => Quad(0x474a9c8c, 0x30130182, 0x36594b14, 0xdfce00bc)
    case 61 => Quad(0xdfce00bc, 0x7246fad3, 0x30130182, 0x36594b14)
    case 62 => Quad(0x36594b14, 0x6e10a476, 0x7246fad3, 0x30130182)
    case 63 => Quad(0x30130182, 0xff4ea3eb, 0x6e10a476, 0x7246fad3)
    case _ => Quad(0x7246fad3, 0x14e45506, 0xff4ea3eb, 0x6e10a476)
  }

  lemma Operation0(x: seq<Word>)
    requires Empty(x)
    ensures OneOn(Alu32(), x, Quad(0x67452301, 0xefcdab89, 0x98badcfe, 0x10325476), 0,
                  Quad(0x10325476, 0xa5202774, 0xefcdab89, 0x98badcfe))
  {
  }

  lemma Operation1(x: seq<Word>)
    requires Empty(x)
    ensures OneOn(Alu32(), x, Quad(0x10325476, 0xa5202774, 0xefcdab89, 0x98badcfe), 1,
                  Quad(0x98badcfe, 0xf59592dd, 0xa5202774, 0xefcdab89))
  {
  }

  lemma Operation2(x: seq<Word>)
    requires Empty(x)
    ensures OneOn(Alu32(), x, Quad(0x98badcfe, 0xf59592dd, 0xa5202774, 0xefcdab89), 2,
                  Quad(0xefcdab89, 0xe7f06b23, 0xf59592dd, 0xa5202774))
  {
  }

  lemma Operation3(x: seq<Word>)
    requires Empty(x)
    ensures OneOn(Alu32(), x, Quad(0xefcdab89, 0xe7f06b23, 0xf59592dd, 0xa5202774), 3,
                  Quad(0xa5202774, 0x1b163203, 0xe7f06b23, 0xf59592dd))
  {
  }

  lemma Operation4(x: seq<Word>)
    requires Empty(x)
    ensures OneOn(Alu32(), x, Quad(0xa5202774, 0x1b163203, 0xe7f06b23, 0xf59592dd), 4,
                  Quad(0xf59592dd, 0x32033344, 0x1b163203, 0xe7f06b23))
  {
  }

  lemma Operation5(x: seq<Word>)
    requires Empty(x)
    ensures OneOn(Alu32(), x, Quad(0xf59592dd, 0x32033344, 0x1b163203, 0xe7f06b23), 5,
                  Quad(0xe7f06b23, 0x2f35d494, 0x32033344, 0x1b163203))
  {
  }

  lemma Operation6(x: seq<Word>)
    requires Empty(x)
    ensures OneOn(Alu32(), x, Quad(0xe7f06b23, 0x2f35d494, 0x32033344, 0x1b163203), 6,
                  Quad(0x1b163203, 0xf5b158db, 0x2f35d494, 0x32033344))
  {
  }

  lemma Operation7(x: seq<Word>)
    requires Empty(x)
    ensures OneOn(Alu32(), x, Quad(0x1b163203, 0xf5b158db, 0x2f35d494, 0x32033344), 7,
                  Quad(0x32033344, 0x9bc13ce9, 0xf5b158db, 0x2f35d494))
  {
  }

  lemma Operation8(x: seq<Word>)
    requires Empty(x)
    ensures OneOn(Alu32(), x, Quad(0x32033344, 0x9bc13ce9, 0xf5b158db, 0x2f35d494), 8,
                  Quad(0x2f35d494, 0x3893b991, 0x9bc13ce9, 0xf5b158db))
  {
  }

  lemma Operation9(x: seq<Word>)
    requires Empty(x)
    ensures OneOn(Alu32(), x, Quad(0x2f35d494, 0x3893b991, 0x9bc13ce9, 0xf5b158db), 9,
                  Quad(0xf5b158db, 0xfce4a312, 0x3893b991, 0x9bc13ce9))
  {
  }

  lemma Operation10(x: seq<Word>)
    requires Empty(x)
    ensures OneOn(Alu32(), x, Quad(0xf5b158db, 0xfce4a312, 0x3893b991, 0x9bc13ce9), 10,
                  Quad(0x9bc13ce9, 0xe1ef0576, 0xfce4a312, 0x3893b991))
  {
  }

  lemma Operation11(x: seq<Word>)
    requires Empty(x)
    ensures OneOn(Alu32(), x, Quad(0x9bc13ce9, 0xe1ef0576, 0xfce4a312, 0x3893b991), 11,
                  Quad(0x3893b991, 0x70768a29, 0xe1ef0576, 0xfce4a312))
  {
  }

  lemma Operation12(x: seq<Word>)
    requires Empty(x)
    ensures OneOn(Alu32(), x, Quad(0x3893b991, 0x70768a29, 0xe1ef0576, 0xfce4a312), 12,
                  Quad(0xfce4a312, 0xf56c7cf1, 0x70768a29, 0xe1ef0576))
  {
  }

  lemma Operation13(x: seq<Word>)
    requires Empty(x)
    ensures OneOn(Alu32(), x, Quad(0xfce4a312, 0xf56c7cf1, 0x70768a29, 0xe1ef0576), 13,
                  Quad(0xe1ef0576, 0x374943a7, 0xf56c7cf1, 0x70768a29))
  {
  }

  lemma Operation14(x: seq<Word>)
    requires Empty(x)
    ensures OneOn(Alu32(), x, Quad(0xe1ef0576, 0x374943a7, 0xf56c7cf1, 0x70768a29), 14,
                  Quad(0x70768a29, 0x5aa53f75, 0x374943a7, 0xf56c7cf1))
  {
  }

  lemma Operation15(x: seq<Word>)
    requires Empty(x)
    ensures OneOn(Alu32(), x, Quad(0x70768a29, 0x5aa53f75, 0x374943a7, 0xf56c7cf1), 15,
                  Quad(0xf56c7cf1, 0xd6819c6a, 0x5aa53f75, 0x374943a7))
  {
  }

  lemma Operation16(x: seq<Word>)
    requires Empty(x)
    ensures OneOn(Alu32(), x, Quad(0xf56c7cf1, 0xd6819c6a, 0x5aa53f75, 0x374943a7), 16,
                  Quad(0x374943a7, 0x1c7d7513, 0xd6819c6a, 0x5aa53f75))
  {
  }

  lemma Operation17(x: seq<Word>)
    requires Empty(x)
    ensures OneOn(Alu32(), x, Quad(0x374943a7, 0x1c7d7513, 0xd6819c6a, 0x5aa53f75), 17,
                  Quad(0x5aa53f75, 0x7bd57a3a, 0x1c7d7513, 0xd6819c6a))
  {
  }

  lemma Operation18(x: seq<Word>)
    requires Empty(x)
    ensures OneOn(Alu32(), x, Quad(0x5aa53f75, 0x7bd57a3a, 0x1c7d7513, 0xd6819c6a), 18,
                  Quad(0xd6819c6a, 0xc095f13a, 0x7bd57a3a, 0x1c7d7513))
  {
  }

  lemma Operation19(x: seq<Word>)
    requires Empty(x)
    ensures OneOn(Alu32(), x, Quad(0xd6819c6a, 0xc095f13a, 0x7bd57a3a, 0x1c7d7513), 19,
                  Quad(0x1c7d7513, 0xbd782e17, 0xc095f13a, 0x7bd57a3a))
  {
  }

  lemma Operation20(x: seq<Word>)
    requires Empty(x)
    ensures OneOn(Alu32(), x, Quad(0x1c7d7513, 0xbd782e17, 0xc095f13a, 0x7bd57a3a), 20,
                  Quad(0x7bd57a3a, 0x3d1e3e6c, 0xbd782e17, 0xc095f13a))
  {
  }

  lemma Operation21(x: seq<Word>)
    requires Empty(x)
    ensures OneOn(Alu32(), x, Quad(0x7bd57a3a, 0x3d1e3e6c, 0xbd782e17, 0xc095f13a), 21,
                  Quad(0xc095f13a, 0x68b7b3e3, 0x3d1e3e6c, 0xbd782e17))
  {
  }

  lemma Operation22(x: seq<Word>)
    requires Empty(x)
    ensures OneOn(Alu32(), x, Quad(0xc095f13a, 0x68b7b3e3, 0x3d1e3e6c, 0xbd782e17), 22,
                  Quad(0xbd782e17, 0xeb41643e, 0x68b7b3e3, 0x3d1e3e6c))
  {
  }

  lemma Operation23(x: seq<Word>)
    requires Empty(x)
    ensures OneOn(Alu32(), x, Quad(0xbd782e17, 0xeb41643e, 0x68b7b3e3, 0x3d1e3e6c), 23,
                  Quad(0x3d1e3e6c, 0xe422531a, 0xeb41643e, 0x68b7b3e3))
  {
  }

  lemma Operation24(x: seq<Word>)
    requires Empty(x)
    ensures OneOn(Alu32(), x, Quad(0x3d1e3e6c, 0xe422531a, 0xeb41643e, 0x68b7b3e3), 24,
                  Quad(0x68b7b3e3, 0x306ec122, 0xe422531a, 0xeb41643e))
  {
  }

  lemma Operation25(x: seq<Word>)
    requires Empty(x)
    ensures OneOn(Alu32(), x, Quad(0x68b7b3e3, 0x306ec122, 0xe422531a, 0xeb41643e), 25,
                  Quad(0xeb41643e, 0xd28c77c2, 0x306ec122, 0xe422531a))
  {
  }

  lemma Operation26(x: seq<Word>)
    requires Empty(x)
    ensures OneOn(Alu32(), x, Quad(0xeb41643e, 0xd28c77c2, 0x306ec122, 0xe422531a), 26,
                  Quad(0xe422531a, 0xa3c663da, 0xd28c77c2, 0x306ec122))
  {
  }

  lemma Operation27(x: seq<Word>)
    requires Empty(x)
    ensures OneOn(Alu32(), x, Quad(0xe422531a, 0xa3c663da, 0xd28c77c2, 0x306ec122), 27,
                  Quad(0x306ec122, 0xa0572807, 0xa3c663da, 0xd28c77c2))
  {
  }

  lemma Operation28(x: seq<Word>)
    requires Empty(x)
    ensures OneOn(Alu32(), x, Quad(0x306ec122, 0xa0572807, 0xa3c663da, 0xd28c77c2), 28,
                  Quad(0xd28c77c2, 0x13707036, 0xa0572807, 0xa3c663da))
  {
  }

  lemma Operation29(x: seq<Word>)
    requires Empty(x)
    ensures OneOn(Alu32(), x, Quad(0xd28c77c2, 0x13707036, 0xa0572807, 0xa3c663da), 29,
                  Quad(0xa3c663da, 0xae7813db, 0x13707036, 0xa0572807))
  {
  }

  lemma Operation30(x: seq<Word>)
    requires Empty(x)
    ensures OneOn(Alu32(), x, Quad(0xa3c663da, 0xae7813db, 0x13707036, 0xa0572807), 30,
                  Quad(0xa0572807, 0x1c31c384, 0xae7813db, 0x13707036))
  {
  }

  lemma Operation31(x: seq<Word>)
    requires Empty(x)
    ensures OneOn(Alu32(), x, Quad(0xa0572807, 0x1c31c384, 0xae7813db, 0x13707036), 31,
                  Quad(0x13707036, 0xa2205f1f, 0x1c31c384, 0xae7813db))
  {
  }

  lemma Operation32(x: seq<Word>)
    requires Empty(x)
    ensures OneOn(Alu32(), x, Quad(0x13707036, 0xa2205f1f, 0x1c31c384, 0xae7813db), 32,
                  Quad(0xae7813db, 0xdf63eaa1, 0xa2205f1f, 0x1c31c384))
  {
  }

  lemma Operation33(x: seq<Word>)
    requires Empty(x)
    ensures OneOn(Alu32(), x, Quad(0xae7813db, 0xdf63eaa1, 0xa2205f1f, 0x1c31c384), 33,
                  Quad(0x1c31c384, 0xc3689f5b, 0xdf63eaa1, 0xa2205f1f))
  {
  }

  lemma Operation34(x: seq<Word>)
    requires Empty(x)
    ensures OneOn(Alu32(), x, Quad(0x1c31c384, 0xc3689f5b, 0xdf63eaa1, 0xa2205f1f), 34,
                  Quad(0xa2205f1f, 0x12f3e755, 0xc3689f5b, 0xdf63eaa1))
  {
  }

  lemma Operation35(x: seq<Word>)
    requires Empty(x)
    ensures OneOn(Alu32(), x, Quad(0xa2205f1f, 0x12f3e755, 0xc3689f5b, 0xdf63eaa1), 35,
                  Quad(0xdf63eaa1, 0x004b6669, 0x12f3e755, 0xc3689f5b))
  {
  }

  lemma Operation36(x: seq<Word>)
    requires Empty(x)
    ensures OneOn(Alu32(), x, Quad(0xdf63eaa1, 0x004b6669, 0x12f3e755, 0xc3689f5b), 36,
                  Quad(0xc3689f5b, 0x5f7a9b2e, 0x004b6669, 0x12f3e755))
  {
  }

  lemma Operation37(x: seq<Word>)
    requires Empty(x)
    ensures OneOn(Alu32(), x, Quad(0xc3689f5b, 0x5f7a9b2e, 0x004b6669, 0x12f3e755), 37,
                  Quad(0x12f3e755, 0xabc34e16, 0x5f7a9b2e, 0x004b6669))
  {
  }

  lemma Operation38(x: seq<Word>)
    requires Empty(x)
    ensures OneOn(Alu32(), x, Quad(0x12f3e755, 0xabc34e16, 0x5f7a9b2e, 0x004b6669), 38,
                  Quad(0x004b6669, 0x91ca4cb7, 0xabc34e16, 0x5f7a9b2e))
  {
  }

  lemma Operation39(x: seq<Word>)
    requires Empty(x)
    ensures OneOn(Alu32(), x, Quad(0x004b6669, 0x91ca4cb7, 0xabc34e16, 0x5f7a9b2e), 39,
                  Quad(0x5f7a9b2e, 0xc5dc8c15, 0x91ca4cb7, 0xabc34e16))
  {
  }

  lemma Operation40(x: seq<Word>)
    requires Empty(x)
    ensures OneOn(Alu32(), x, Quad(0x5f7a9b2e, 0xc5dc8c15, 0x91ca4cb7, 0xabc34e16), 40,
                  Quad(0xabc34e16, 0x4497169d, 0xc5dc8c15, 0x91ca4cb7))
  {
  }

  lemma Operation41(x: seq<Word>)
    requires Empty(x)
    ensures OneOn(Alu32(), x, Quad(0xabc34e16, 0x4497169d, 0xc5dc8c15, 0x91ca4cb7), 41,
                  Quad(0x91ca4cb7, 0x76fd93d4, 0x4497169d, 0xc5dc8c15))
  {
  }

  lemma Operation42(x: seq<Word>)
    requires Empty(x)
    ensures OneOn(Alu32(), x, Quad(0x91ca4cb7, 0x76fd93d4, 0x4497169d, 0xc5dc8c15), 42,
                  Quad(0xc5dc8c15, 0xfd95f243, 0x76fd93d4, 0x4497169d))
  {
  }

  lemma Operation43(x: seq<Word>)
    requires Empty(x)
    ensures OneOn(Alu32(), x, Quad(0xc5dc8c15, 0xfd95f243, 0x76fd93d4, 0x4497169d), 43,
                  Quad(0x4497169d, 0x0fe32453, 0xfd95f243, 0x76fd93d4))
  {
  }

  lemma Operation44(x: seq<Word>)
    requires Empty(x)
    ensures OneOn(Alu32(), x, Quad(0x4497169d, 0x0fe32453, 0xfd95f243, 0x76fd93d4), 44,
                  Quad(0x76fd93d4, 0x3f55edfd, 0x0fe32453, 0xfd95f243))
  {
  }

  lemma Operation45(x: seq<Word>)
    requires Empty(x)
    ensures OneOn(Alu32(), x, Quad(0x76fd93d4, 0x3f55edfd, 0x0fe32453, 0xfd95f243), 45,
                  Quad(0xfd95f243, 0x22a31f54, 0x3f55edfd, 0x0fe32453))
  {
  }

  lemma Operation46(x: seq<Word>)
    requires Empty(x)
    ensures OneOn(Alu32(), x, Quad(0xfd95f243, 0x22a31f54, 0x3f55edfd, 0x0fe32453), 46,
                  Quad(0x0fe32453, 0x68d84ea2, 0x22a31f54, 0x3f55edfd))
  {
  }

  lemma Operation47(x: seq<Word>)
    requires Empty(x)
    ensures OneOn(Alu32(), x, Quad(0x0fe32453, 0x68d84ea2, 0x22a31f54, 0x3f55edfd), 47,
                  Quad(0x3f55edfd, 0xca7d2dbd, 0x68d84ea2, 0x22a31f54))
  {
  }

  lemma Operation48(x: seq<Word>)
    requires Empty(x)
    ensures OneOn(Alu32(), x, Quad(0x3f55edfd, 0xca7d2dbd, 0x68d84ea2, 0x22a31f54), 48,
                  Quad(0x22a31f54, 0x93aa2577, 0xca7d2dbd, 0x68d84ea2))
  {
  }

  lemma Operation49(x: seq<Word>)
    requires Empty(x)
    ensures OneOn(Alu32(), x, Quad(0x22a31f54, 0x93aa2577, 0xca7d2dbd, 0x68d84ea2), 49,
                  Quad(0x68d84ea2, 0x1688dc85, 0x93aa2577, 0xca7d2dbd))
  {
  }

  lemma Operation50(x: seq<Word>)
    requires Empty(x)
    ensures OneOn(Alu32(), x, Quad(0x68d84ea2, 0x1688dc85, 0x93aa2577, 0xca7d2dbd), 50,
                  Quad(0xca7d2dbd, 0xcd85b8cb, 0x1688dc85, 0x93aa2577))
  {
  }

  lemma Operation51(x: seq<Word>)
    requires Empty(x)
    ensures OneOn(Alu32(), x, Quad(0xca7d2dbd, 0xcd85b8cb, 0x1688dc85, 0x93aa2577), 51,
                  Quad(0x93aa2577, 0x561e0689, 0xcd85b8cb, 0x1688dc85))
  {
  }

  lemma Operation52(x: seq<Word>)
    requires Empty(x)
    ensures OneOn(Alu32(), x, Quad(0x93aa2577, 0x561e0689, 0xcd85b8cb, 0x1688dc85), 52,
                  Quad(0x1688dc85, 0x5625a114, 0x561e0689, 0xcd85b8cb))
  {
  }

  lemma Operation53(x: seq<Word>)
    requires Empty(x)
    ensures OneOn(Alu32(), x, Quad(0x1688dc85, 0x5625a114, 0x561e0689, 0xcd85b8cb), 53,
                  Quad(0xcd85b8cb, 0x3450f42b, 0x5625a114, 0x561e0689))
  {
  }

  lemma Operation54(x: seq<Word>)
    requires Empty(x)
    ensures OneOn(Alu32(), x, Quad(0xcd85b8cb, 0x3450f42b, 0x5625a114, 0x561e0689), 54,
                  Quad(0x561e0689, 0x392ad0d0, 0x3450f42b, 0x5625a114))
  {
  }

  lemma Operation55(x: seq<Word>)
    requires Empty(x)
    ensures OneOn(Alu32(), x, Quad(0x561e0689, 0x392ad0d0, 0x3450f42b, 0x5625a114), 55,
                  Quad(0x5625a114, 0x1e77fa61, 0x392ad0d0, 0x3450f42b))
  {
  }

  lemma Operation56(x: seq<Word>)
    requires Empty(x)
    ensures OneOn(Alu32(), x, Quad(0x5625a114, 0x1e77fa61, 0x392ad0d0, 0x3450f42b), 56,
                  Quad(0x3450f42b, 0x474a9c8c, 0x1e77fa61, 0x392ad0d0))
  {
  }

  lemma Operation57(x: seq<Word>)
    requires Empty(x)
    ensures OneOn(Alu32(), x, Quad(0x3450f42b, 0x474a9c8c, 0x1e77fa61, 0x392ad0d0), 57,
                  Quad(0x392ad0d0, 0xdfce00bc, 0x474a9c8c, 0x1e77fa61))
  {
  }

  lemma Operation58(x: seq<Word>)
    requires Empty(x)
    ensures OneOn(Alu32(), x, Quad(0x392ad0d0, 0xdfce00bc, 0x474a9c8c, 0x1e77fa61), 58,
                  Quad(0x1e77fa61, 0x36594b14, 0xdfce00bc, 0x474a9c8c))
  {
  }

  lemma Operation59(x: seq<Word>)
    requires Empty(x)
    ensures OneOn(Alu32(), x, Quad(0x1e77fa61, 0x36594b14, 0xdfce00bc, 0x474a9c8c), 59,
                  Quad(0x474a9c8c, 0x30130182, 0x36594b14, 0xdfce00bc))
  {
  }

  lemma Operation60(x: seq<Word>)
    requires Empty(x)
    ensures OneOn(Alu32(), x, Quad(0x474a9c8c, 0x30130182, 0x36594b14, 0xdfce00bc), 60,
                  Quad(0xdfce00bc, 0x7246fad3, 0x30130182, 0x36594b14))
  {
  }

  lemma Operation61(x: seq<Word>)
    requires Empty(x)
    ensures OneOn(Alu32(), x, Quad(0xdfce00bc, 0x7246fad3, 0x30130182, 0x36594b14), 61,
                  Quad(0x36594b14, 0x6e10a476, 0x7246fad3, 0x30130182))
  {
  }

  lemma Operation62(x: seq<Word>)
    requires Empty(x)
    ensures OneOn(Alu32(), x, Quad(0x36594b14, 0x6e10a476, 0x7246fad3, 0x30130182), 62,
                  Quad(0x30130182, 0xff4ea3eb, 0x6e10a476, 0x7246fad3))
  {
  }

  lemma Operation63(x: seq<Word>)
    requires Empty(x)
    ensures OneOn(Alu32(), x, Quad(0x30130182, 0xff4ea3eb, 0x6e10a476, 0x7246fad3), 63,
                  Quad(0x7246fad3, 0x14e45506, 0xff4ea3eb, 0x6e10a476))
  {
  }

  lemma Round1(x: seq<Word>, n: nat)
    requires Empty(x) && 0 <= n < 16
    ensures OneOn(Alu32(), x, State(n), n, State(n + 1))
  {
    match n
    case 0 => Operation0(x);
    case 1 => Operation1(x);
    case 2 => Operation2(x);
    case 3 => Operation3(x);
    case 4 => Operation4(x);
    case 5 => Operation5(x);
    case 6 => Operation6(x);
    case 7 => Operation7(x);
    case 8 => Operation8(x);
    case 9 => Operation9(x);
    case 10 => Operation10(x);
    case 11 => Operation11(x);
    case 12 => Operation12(x);
    case 13 => Operation13(x);
    case 14 => Operation14(x);
    case 15 => Operation15(x);
  }

  lemma Round2(x: seq<Word>, n: nat)
    requires Empty(x) && 16 <= n < 32
    ensures OneOn(Alu32(), x, State(n), n, State(n + 1))
  {
    match n
    case 16 => Operation16(x);
    case 17 => Operation17(x);
    case 18 => Operation18(x);
    case 19 => Operation19(x);
    case 20 => Operation20(x);
    case 21 => Operation21(x);
    case 22 => Operation22(x);
    case 23 => Operation23(x);
    case 24 => Operation24(x);
    case 25 => Operation25(x);
    case 26 => Operation26(x);
    case 27 => Operation27(x);
    case 28 => Operation28(x);
    case 29 => Operation29(x);
    case 30 => Operation30(x);
    case 31 => Operation31(x);
  }

  lemma Round3(x: seq<Word>, n: nat)
    requires Empty(x) && 32 <= n < 48
    ensures OneOn(Alu32(), x, State(n), n, State(n + 1))
  {
    match n
    case 32 => Operation32(x);
    case 33 => Operation33(x);
    case 34 => Operation34(x);
    case 35 => Operation35(x);
    case 36 => Operation36(x);
    case 37 => Operation37(x);
    case 38 => Operation38(x);
    case 39 => Operation39(x);
    case 40 => Operation40(x);
    case 41 => Operation41(x);
    case 42 => Operation42(x);
    case 43 => Operation43(x);
    case 44 => Operation44(x);
    case 45 => Operation45(x);
    case 46 => Operation46(x);
    case 47 => Operation47(x);
  }

  lemma Round4(x: seq<Word>, n: nat)
    requires Empty(x) && 48 <= n < 64
    ensures OneOn(Alu32(), x, State(n), n, State(n + 1))
  {
    match n
    case 48 => Operation48(x);
    case 49 => Operation49(x);
    case 50 => Operation50(x);
    case 51 => Operation51(x);
    case 52 => Operation52(x);
    case 53 => Operation53(x);
    case 54 => Operation54(x);
    case 55 => Operation55(x);
    case 56 => Operation56(x);
    case 57 => Operation57(x);
    case 58 => Operation58(x);
    case 59 => Operation59(x);
    case 60 => Operation60(x);
    case 61 => Operation61(x);
    case 62 => Operation62(x);
    case 63 => Operation63(x);
  }

  lemma AllOperations(x: seq<Word>, n: nat)
    requires Empty(x) && n == 4 * |x|
    ensures StandardOperations(Alu32(), State(0), x, n) == State(n)
  {
    forall i: nat | i < 64 ensures OneOn(Alu32(), x, State(i), i, State(i + 1)) {
      if i < 16 { Round1(x, i); } else if i < 32 { Round2(x, i); } else if i < 48 { Round3(x, i); } else { Round4(x, i); }
    }
    TrailLeads(Alu32(), x, State, n);
  }

  lemma Compressed(x: seq<Word>)
    requires Empty(x)
    ensures StandardCompress(Alu32(), Initial(), x) == Quad(0xd98c1dd4, 0x04b2008f, 0x980980e9, 0x7e42f8ec)
  {
    AllOperations(x, 4 * |x|);
    LastSum();
  }

  lemma LastSum() ensures Sum(Alu32(), State(64), State(0)) == Quad(0xd98c1dd4, 0x04b2008f, 0x980980e9, 0x7e42f8ec) {}

  lemma EmptyPadded()
    ensures var p := Padded([]); |p| == 64 && p[0] == 0x80 && forall i :: 1 <= i < 64 ==> p[i] == 0
  {
    ZeroWord();
    assert AsWord(8 * 0 % TWO32) == AsWord(0) && AsWord(8 * 0 / TWO32 % TWO32) == AsWord(0);
    assert |Padding(0)| == 56;
  }

  lemma ZeroWord() ensures BytesOf(AsWord(0)) == [0, 0, 0, 0] {}

  lemma FirstWords() ensures WordOf(0x80, 0, 0, 0) == 0x80 && WordOf(0, 0, 0, 0) == 0 {}

  lemma EmptyWords(p: seq<Byte>)
    requires |p| == 64 && p[0] == 0x80 && forall i :: 1 <= i < 64 ==> p[i] == 0
    ensures Empty(Words(p))
  {
    FirstWords();
  }

  lemma LastBytes(q: Quad<Word>)
    requires q == Quad(0xd98c1dd4, 0x04b2008f, 0x980980e9, 0x7e42f8ec)
    ensures BytesOf(q.a) == [0xd4, 0x1d, 0x8c, 0xd9] && BytesOf(q.b) == [0x8f, 0x00, 0xb2, 0x04]
    ensures BytesOf(q.c) == [0xe9, 0x80, 0x09, 0x98] && BytesOf(q.d) == [0xec, 0xf8, 0x42, 0x7e]
  {
  }

  /** MD5 ("") = d41d8cd98f00b204e9800998ecf8427e. */
  lemma EmptyDigest()
    ensures Digest([]) == [0xd4, 0x1d, 0x8c, 0xd9, 0x8f, 0x00, 0xb2, 0x04,
                           0xe9, 0x80, 0x09, 0x98, 0xec, 0xf8, 0x42, 0x7e]
  {
    EmptyPadded();
    var p := Padded([]);
    EmptyWords(p);
    Compressed(Words(p));
    OneBlock(p);
    LastBytes(Quad(0xd98c1dd4, 0x04b2008f, 0x980980e9, 0x7e42f8ec));
    OutputOrder(Quad(0xd98c1dd4, 0x04b2008f, 0x980980e9, 0x7e42f8ec));
  }

  lemma OneBlock(p: seq<Byte>)
    requires |p| == 64
    ensures Chain(OnBlocks(), Initial(), p, |p| / 64) == StandardCompress(Alu32(), Initial(), Words(p))
  {
    assert p[0..64] == p;
    assert Chain(OnBlocks(), Initial(), p, 0) == Initial();
  }
}
