/** The 64 steps for the one block of the empty message. */
module Md5Empty {
  import opened Md5Words
  import opened Md5Transform
  import opened Md5Rows

  lemma Bits1()
    ensures Bits(0, 0xefcdab89, 0x98badcfe, 0x10325476) == 0x98badcfe
    ensures Bits(0, 0xa5202774, 0xefcdab89, 0x98badcfe) == 0xbd9afb8a
    ensures Bits(0, 0xf59592dd, 0xa5202774, 0xefcdab89) == 0xaf482b54
    ensures Bits(0, 0xe7f06b23, 0xf59592dd, 0xa5202774) == 0xe5900655
    ensures Bits(0, 0x1b163203, 0xe7f06b23, 0xf59592dd) == 0xe791a2df
    ensures Bits(0, 0x32033344, 0x1b163203, 0xe7f06b23) == 0xd7f27a23
    ensures Bits(0, 0x2f35d494, 0x32033344, 0x1b163203) == 0x32033207
    ensures Bits(0, 0xf5b158db, 0x2f35d494, 0x32033344) == 0x27337394
    ensures Bits(0, 0x9bc13ce9, 0xf5b158db, 0x2f35d494) == 0xb5b5d8dd
    ensures Bits(0, 0x3893b991, 0x9bc13ce9, 0xf5b158db) == 0xdda178cb
    ensures Bits(0, 0xfce4a312, 0x3893b991, 0x9bc13ce9) == 0x3b81bdf9
    ensures Bits(0, 0xe1ef0576, 0xfce4a312, 0x3893b991) == 0xf8f4b993
    ensures Bits(0, 0x70768a29, 0xe1ef0576, 0xfce4a312) == 0xece62132
    ensures Bits(0, 0xf56c7cf1, 0x70768a29, 0xe1ef0576) == 0x70e70927
    ensures Bits(0, 0x374943a7, 0xf56c7cf1, 0x70768a29) == 0x757ec8a9
    ensures Bits(0, 0x5aa53f75, 0x374943a7, 0xf56c7cf1) == 0xb74943a5
  {
    hide G, H, I;
  }

  lemma Bits2()
    ensures Bits(1, 0xd6819c6a, 0x5aa53f75, 0x374943a7) == 0x5ea53c72
    ensures Bits(1, 0x1c7d7513, 0xd6819c6a, 0x5aa53f75) == 0x9c25b51b
    ensures Bits(1, 0x7bd57a3a, 0x1c7d7513, 0xd6819c6a) == 0x5afd793b
    ensures Bits(1, 0xc095f13a, 0x7bd57a3a, 0x1c7d7513) == 0x63957b3a
    ensures Bits(1, 0xbd782e17, 0xc095f13a, 0x7bd57a3a) == 0xb950ab12
    ensures Bits(1, 0x3d1e3e6c, 0xbd782e17, 0xc095f13a) == 0x3d7c3e2d
    ensures Bits(1, 0x68b7b3e3, 0x3d1e3e6c, 0xbd782e17) == 0x2836326b
    ensures Bits(1, 0xeb41643e, 0x68b7b3e3, 0x3d1e3e6c) == 0x69a1a5af
    ensures Bits(1, 0xe422531a, 0xeb41643e, 0x68b7b3e3) == 0xe362571e
    ensures Bits(1, 0x306ec122, 0xe422531a, 0xeb41643e) == 0x24625322
    ensures Bits(1, 0xd28c77c2, 0x306ec122, 0xe422531a) == 0xd04cd322
    ensures Bits(1, 0xa3c663da, 0xd28c77c2, 0x306ec122) == 0xe2c677c2
    ensures Bits(1, 0xa0572807, 0xa3c663da, 0xd28c77c2) == 0xa146201a
    ensures Bits(1, 0x13707036, 0xa0572807, 0xa3c663da) == 0x3516817
    ensures Bits(1, 0xae7813db, 0x13707036, 0xa0572807) == 0xb3705033
    ensures Bits(1, 0x1c31c384, 0xae7813db, 0x13707036) == 0xbc3843cd
  {
    hide F, H, I;
  }

  lemma Bits3()
    ensures Bits(2, 0xa2205f1f, 0x1c31c384, 0xae7813db) == 0x10698f40
    ensures Bits(2, 0xdf63eaa1, 0xa2205f1f, 0x1c31c384) == 0x6172763a
    ensures Bits(2, 0xc3689f5b, 0xdf63eaa1, 0xa2205f1f) == 0xbe2b2ae5
    ensures Bits(2, 0x12f3e755, 0xc3689f5b, 0xdf63eaa1) == 0xef892af
    ensures Bits(2, 0x4b6669, 0x12f3e755, 0xc3689f5b) == 0xd1d01e67
    ensures Bits(2, 0x5f7a9b2e, 0x4b6669, 0x12f3e755) == 0x4dc21a12
    ensures Bits(2, 0xabc34e16, 0x5f7a9b2e, 0x4b6669) == 0xf4f2b351
    ensures Bits(2, 0x91ca4cb7, 0xabc34e16, 0x5f7a9b2e) == 0x6573998f
    ensures Bits(2, 0xc5dc8c15, 0x91ca4cb7, 0xabc34e16) == 0xffd58eb4
    ensures Bits(2, 0x4497169d, 0xc5dc8c15, 0x91ca4cb7) == 0x1081d63f
    ensures Bits(2, 0x76fd93d4, 0x4497169d, 0xc5dc8c15) == 0xf7b6095c
    ensures Bits(2, 0xfd95f243, 0x76fd93d4, 0x4497169d) == 0xcfff770a
    ensures Bits(2, 0xfe32453, 0xfd95f243, 0x76fd93d4) == 0x848b45c4
    ensures Bits(2, 0x3f55edfd, 0xfe32453, 0xfd95f243) == 0xcd233bed
    ensures Bits(2, 0x22a31f54, 0x3f55edfd, 0xfe32453) == 0x1215d6fa
    ensures Bits(2, 0x68d84ea2, 0x22a31f54, 0x3f55edfd) == 0x752ebc0b
  {
    hide F, G, I;
  }

  lemma Bits4()
    ensures Bits(3, 0xca7d2dbd, 0x68d84ea2, 0x22a31f54) == 0xb7a5a31d
    ensures Bits(3, 0x93aa2577, 0xca7d2dbd, 0x68d84ea2) == 0x5dd298c2
    ensures Bits(3, 0x1688dc85, 0x93aa2577, 0xca7d2dbd) == 0xa420fbb0
    ensures Bits(3, 0xcd85b8cb, 0x1688dc85, 0x93aa2577) == 0xfb5d264e
    ensures Bits(3, 0x561e0689, 0xcd85b8cb, 0x1688dc85) == 0x32fa9f30
    ensures Bits(3, 0x5625a114, 0x561e0689, 0xcd85b8cb) == 0x2061e1bd
    ensures Bits(3, 0x3450f42b, 0x5625a114, 0x561e0689) == 0xebd45c6b
    ensures Bits(3, 0x392ad0d0, 0x3450f42b, 0x5625a114) == 0x8daa2ad0
    ensures Bits(3, 0x1e77fa61, 0x392ad0d0, 0x3450f42b) == 0xe6d52b25
    ensures Bits(3, 0x474a9c8c, 0x1e77fa61, 0x392ad0d0) == 0xd9a845ce
    ensures Bits(3, 0xdfce00bc, 0x474a9c8c, 0x1e77fa61) == 0xb8849932
    ensures Bits(3, 0x36594b14, 0xdfce00bc, 0x474a9c8c) == 0x61336bcb
    ensures Bits(3, 0x30130182, 0x36594b14, 0xdfce00bc) == 0x66ab4d7
    ensures Bits(3, 0x7246fad3, 0x30130182, 0x36594b14) == 0xcbf5ff79
    ensures Bits(3, 0x6e10a476, 0x7246fad3, 0x30130182) == 0x9dba04ac
    ensures Bits(3, 0xff4ea3eb, 0x6e10a476, 0x7246fad3) == 0x91ef0399
  {
    hide F, G, H;
  }

  lemma Rows2()
    ensures After(2, 0x80, 0, Quad(0x32033344, 0x9bc13ce9, 0xf5b158db, 0x2f35d494))
  {
    hide Bits, After, KRow;
    NoSteps(0x80, 0);
    WordIndices();
    Bits1();
    Row(0, 0x80, 0, Quad(0x67452301, 0xefcdab89, 0x98badcfe, 0x10325476), (0, 1, 2, 3),
      (0xd76aa478, 0xe8c7b756, 0x242070db, 0xc1bdceee), (0x80, 0x1000, 0x20000, 0x400000),
      (0x2000000, 0x100000, 0x8000, 0x400), (0x98badcfe, 0xbd9afb8a, 0xaf482b54, 0xe5900655), (1, 1, 1, 2),
      (0x6b, 0xb69, 0xd846, 0x25c6e0), (0x16aa4f7, 0x50756, 0x792d, 0xcc), (1, 0, 1, 1),
      Quad(0xa5202774, 0x1b163203, 0xe7f06b23, 0xf59592dd));
    Row(1, 0x80, 0, Quad(0xa5202774, 0x1b163203, 0xe7f06b23, 0xf59592dd), (4, 5, 6, 7),
      (0xf57c0faf, 0x4787c62a, 0xa8304613, 0xfd469501), (0x80, 0x1000, 0x20000, 0x400000),
      (0x2000000, 0x100000, 0x8000, 0x400), (0xe791a2df, 0xd7f27a23, 0x32033207, 0x27337394), (2, 2, 1, 1),
      (0x41, 0x150, 0x18447, 0xfe40e), (0x2dda02, 0xfd32a, 0x633d, 0x298), (0, 1, 0, 1),
      Quad(0x32033344, 0x9bc13ce9, 0xf5b158db, 0x2f35d494));
  }

  lemma Rows4()
    ensures After(4, 0x80, 0, Quad(0xf56c7cf1, 0xd6819c6a, 0x5aa53f75, 0x374943a7))
  {
    hide Bits, After, KRow;
    Rows2();
    WordIndices();
    Bits1();
    Row(2, 0x80, 0, Quad(0x32033344, 0x9bc13ce9, 0xf5b158db, 0x2f35d494), (8, 9, 10, 11),
      (0x698098d8, 0x8b44f7af, 0xffff5bb1, 0x895cd7be), (0x80, 0x1000, 0x20000, 0x400000),
      (0x2000000, 0x100000, 0x8000, 0x400), (0xb5b5d8dd, 0xdda178cb, 0x3b81bdf9, 0xf8f4b993), (1, 1, 2, 2),
      (0x28, 0x981, 0x6264, 0x784b3), (0x139a4f9, 0xc450e, 0x7285, 0x23a), (1, 0, 1, 1),
      Quad(0x3893b991, 0x70768a29, 0xe1ef0576, 0xfce4a312));
    Row(3, 0x80, 0, Quad(0x3893b991, 0x70768a29, 0xe1ef0576, 0xfce4a312), (12, 13, 14, 15),
      (0x6b901122, 0xfd987193, 0xa679438e, 0x49b40821), (0x80, 0x1000, 0x20000, 0x400000),
      (0x2000000, 0x100000, 0x8000, 0x400), (0xece62132, 0x70e70927, 0x757ec8a9, 0xb74943a5), (1, 2, 1, 1),
      (0x48, 0x6b6, 0x1fbce, 0x1c5cf5), (0x109ebe5, 0x41dcc, 0x11ad, 0x1ef), (0, 1, 0, 0),
      Quad(0xf56c7cf1, 0xd6819c6a, 0x5aa53f75, 0x374943a7));
  }

  lemma Rows8()
    ensures After(8, 0x80, 0, Quad(0x13707036, 0xa2205f1f, 0x1c31c384, 0xae7813db))
  {
    hide Bits, After, KRow;
    Rows4();
    WordIndices();
    Bits2();
    Row(4, 0x80, 0, Quad(0xf56c7cf1, 0xd6819c6a, 0x5aa53f75, 0x374943a7), (1, 6, 11, 0),
      (0xf61e2562, 0xc040b340, 0x265e5a51, 0xe9b6c7aa), (0x20, 0x200, 0x4000, 0x100000),
      (0x8000000, 0x800000, 0x40000, 0x1000), (0x5ea53c72, 0x9c25b51b, 0x5afd793b, 0x63957b3a), (2, 1, 0, 2),
      (9, 0x127, 0x3700, 0x23cdd), (0x22fdec5, 0x2fac02, 0x11301, 0xfce), (1, 0, 0, 1),
      Quad(0x1c7d7513, 0xbd782e17, 0xc095f13a, 0x7bd57a3a));
    Row(5, 0x80, 0, Quad(0x1c7d7513, 0xbd782e17, 0xc095f13a, 0x7bd57a3a), (5, 10, 15, 4),
      (0xd62f105d, 0x2441453, 0xd8a1e681, 0xe7d3fbc8), (0x20, 0x200, 0x4000, 0x100000),
      (0x8000000, 0x800000, 0x40000, 0x1000), (0xb950ab12, 0x3d7c3e2d, 0x2836326b, 0x69a1a5af), (1, 0, 1, 2),
      (0x15, 0x177, 0x305b, 0xeedc), (0x3fd3082, 0x15ccba, 0x20a26, 0xf8e), (1, 0, 0, 1),
      Quad(0x3d1e3e6c, 0xe422531a, 0xeb41643e, 0x68b7b3e3));
    Row(6, 0x80, 0, Quad(0x3d1e3e6c, 0xe422531a, 0xeb41643e, 0x68b7b3e3), (9, 14, 3, 8),
      (0x21e1cde6, 0xc33707d6, 0xf4d50d87, 0x455a14ed), (0x20, 0x200, 0x4000, 0x100000),
      (0x8000000, 0x800000, 0x40000, 0x1000), (0xe362571e, 0x24625322, 0xd04cd322, 0xe2c677c2), (1, 1, 2, 2),
      (8, 0xa0, 0x2c18, 0xc42d), (0x2626370, 0x510edb, 0x344e7, 0xfc9), (1, 0, 1, 1),
      Quad(0x306ec122, 0xa0572807, 0xa3c663da, 0xd28c77c2));
    Row(7, 0x80, 0, Quad(0x306ec122, 0xa0572807, 0xa3c663da, 0xd28c77c2), (13, 2, 7, 12),
      (0xa9e3e905, 0xfcefa3f8, 0x676f02d9, 0x8d2a4c8a), (0x20, 0x200, 0x4000, 0x100000),
      (0x8000000, 0x800000, 0x40000, 0x1000), (0xa146201a, 0x3516817, 0xb3705033, 0xbc3843cd), (1, 1, 1, 1),
      (0xf, 0x1a5, 0x2fa9, 0xe9b9b), (0x398ca41, 0x4d83d1, 0x1b6e6, 0x85e), (1, 0, 1, 0),
      Quad(0x13707036, 0xa2205f1f, 0x1c31c384, 0xae7813db));
  }

  lemma Rows12()
    ensures After(12, 0x80, 0, Quad(0x3f55edfd, 0xca7d2dbd, 0x68d84ea2, 0x22a31f54))
  {
    hide Bits, After, KRow;
    Rows8();
    WordIndices();
    Bits3();
    Row(8, 0x80, 0, Quad(0x13707036, 0xa2205f1f, 0x1c31c384, 0xae7813db), (5, 8, 11, 14),
      (0xfffa3942, 0x8771f681, 0x6d9d6122, 0xfde5380c), (0x10, 0x800, 0x10000, 0x800000),
      (0x10000000, 0x200000, 0x10000, 0x200), (0x10698f40, 0x6172763a, 0xbe2b2ae5, 0xef892af), (1, 1, 1, 1),
      (2, 0x4ba, 0x47fa, 0x577f14), (0x3d438b8, 0x1c8096, 0x4f8b, 0x1da), (0, 1, 1, 1),
      Quad(0xdf63eaa1, 0x4b6669, 0x12f3e755, 0xc3689f5b));
    Row(9, 0x80, 0, Quad(0xdf63eaa1, 0x4b6669, 0x12f3e755, 0xc3689f5b), (1, 4, 7, 10),
      (0xa4beea44, 0x4bdecfa9, 0xf6bb4b60, 0xbebfbc70), (0x10, 0x800, 0x10000, 0x800000),
      (0x10000000, 0x200000, 0x10000, 0x200), (0xd1d01e67, 0x4dc21a12, 0xf4f2b351, 0x6573998f), (2, 1, 1, 1),
      (5, 0x2e8, 0xfea1, 0x123f5e), (0x5f2f34c, 0x98916, 0xe606, 0x68), (0, 0, 1, 0),
      Quad(0x5f7a9b2e, 0xc5dc8c15, 0x91ca4cb7, 0xabc34e16));
    Row(10, 0x80, 0, Quad(0x5f7a9b2e, 0xc5dc8c15, 0x91ca4cb7, 0xabc34e16), (13, 0, 3, 6),
      (0x289b7ec6, 0xeaa127fa, 0xd4ef3085, 0x4881d05), (0x10, 0x800, 0x10000, 0x800000),
      (0x10000000, 0x200000, 0x10000, 0x200), (0xffd58eb4, 0x1081d63f, 0xf7b6095c, 0xcfff770a), (1, 1, 2, 1),
      (8, 0x537, 0x5e6f, 0x4d3210), (0x7eba8a8, 0x64ccf, 0x8698, 0x24), (1, 0, 0, 1),
      Quad(0x4497169d, 0xfe32453, 0xfd95f243, 0x76fd93d4));
    Row(11, 0x80, 0, Quad(0x4497169d, 0xfe32453, 0xfd95f243, 0x76fd93d4), (9, 12, 15, 2),
      (0xd9d4d039, 0xe6db99e5, 0x1fa27cf8, 0xc4ac5665), (0x10, 0x800, 0x10000, 0x800000),
      (0x10000000, 0x200000, 0x10000, 0x200), (0x848b45c4, 0xcd233bed, 0x1215d6fa, 0x752ebc0b), (1, 2, 1, 1),
      (0xa, 0x157, 0x2f4e, 0x24df1b), (0x2f72c9a, 0x1c69a6, 0x4635, 0xc3), (0, 1, 0, 0),
      Quad(0x3f55edfd, 0xca7d2dbd, 0x68d84ea2, 0x22a31f54));
  }

  lemma Rows16()
    ensures After(16, 0x80, 0, Quad(0x7246fad3, 0x14e45506, 0xff4ea3eb, 0x6e10a476))
  {
    hide Bits, After, KRow;
    Rows12();
    WordIndices();
    Bits4();
    Row(12, 0x80, 0, Quad(0x3f55edfd, 0xca7d2dbd, 0x68d84ea2, 0x22a31f54), (0, 7, 14, 5),
      (0xf4292244, 0x432aff97, 0xab9423a7, 0xfc93a039), (0x40, 0x400, 0x8000, 0x200000),
      (0x4000000, 0x400000, 0x20000, 0x800), (0xb7a5a31d, 0x5dd298c2, 0xa420fbb0, 0xfb5d264e), (1, 0, 1, 2),
      (0x3a, 0x30e, 0x5c46, 0x184dbe), (0x324b3de, 0x20b7ad, 0x16df9, 0x444), (1, 1, 0, 1),
      Quad(0x93aa2577, 0x561e0689, 0xcd85b8cb, 0x1688dc85));
    Row(13, 0x80, 0, Quad(0x93aa2577, 0x561e0689, 0xcd85b8cb, 0x1688dc85), (12, 3, 10, 1),
      (0x655b59c3, 0x8f0ccc92, 0xffeff47d, 0x85845dd1), (0x40, 0x400, 0x8000, 0x200000),
      (0x4000000, 0x400000, 0x20000, 0x800), (0x32fa9f30, 0x2061e1bd, 0xebd45c6b, 0x8daa2ad0), (1, 0, 2, 1),
      (0xb, 0x317, 0x5ca5, 0xd2991), (0x1e6a, 0x378ad4, 0x9b3, 0x72a), (0, 1, 0, 1),
      Quad(0x5625a114, 0x1e77fa61, 0x392ad0d0, 0x3450f42b));
    Row(14, 0x80, 0, Quad(0x5625a114, 0x1e77fa61, 0x392ad0d0, 0x3450f42b), (8, 15, 6, 13),
      (0x6fa87e4f, 0xfe2ce6e0, 0xa3014314, 0x4e0811a1), (0x40, 0x400, 0x8000, 0x200000),
      (0x4000000, 0x400000, 0x20000, 0x800), (0xe6d52b25, 0xd9a845ce, 0xb8849932, 0x61336bcb), (1, 2, 1, 0),
      (0x2b, 0x30, 0x4a58, 0x19b66e), (0xa34a88, 0x2620d9, 0xad16, 0x7cd), (0, 0, 1, 1),
      Quad(0x474a9c8c, 0x30130182, 0x36594b14, 0xdfce00bc));
    Row(15, 0x80, 0, Quad(0x474a9c8c, 0x30130182, 0x36594b14, 0xdfce00bc), (4, 11, 2, 9),
      (0xf7537e82, 0xbd3af235, 0x2ad7d2bb, 0xeb86d391), (0x40, 0x400, 0x8000, 0x200000),
      (0x4000000, 0x400000, 0x20000, 0x800), (0x66ab4d7, 0xcbf5ff79, 0x9dba04ac, 0x91ef0399), (1, 2, 0, 1),
      (0x11, 0x1a3, 0x7f75, 0x15b11b), (0x108cfe5, 0x3ef26a, 0x1227b, 0xac), (0, 1, 0, 1),
      Quad(0x7246fad3, 0x14e45506, 0xff4ea3eb, 0x6e10a476));
  }
}
