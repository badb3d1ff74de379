/** The 64 steps for the one block of the message "abc". */
module Md5Abc {
  import opened Md5Words
  import opened Md5Transform
  import opened Md5Rows

  lemma Bits1()
    ensures Bits(0, 0xefcdab89, 0x98badcfe, 0x10325476) == 0x98badcfe
    ensures Bits(0, 0xd6d117b4, 0xefcdab89, 0x98badcfe) == 0xceebcbca
    ensures Bits(0, 0x344a8432, 0xd6d117b4, 0xefcdab89) == 0xdfc52fb9
    ensures Bits(0, 0x2f6fbd72, 0x344a8432, 0xd6d117b4) == 0xf4da86b6
    ensures Bits(0, 0x7ad956f2, 0x2f6fbd72, 0x344a8432) == 0x2e4b9472
    ensures Bits(0, 0xc73741ef, 0x7ad956f2, 0x2f6fbd72) == 0x6a59fcf2
    ensures Bits(0, 0x8bac3051, 0xc73741ef, 0x7ad956f2) == 0xf37546e3
    ensures Bits(0, 0x207dc67b, 0x8bac3051, 0xc73741ef) == 0xc72e01d5
    ensures Bits(0, 0x928d99f6, 0x207dc67b, 0x8bac3051) == 0x92da073
    ensures Bits(0, 0x854b3712, 0x928d99f6, 0x207dc67b) == 0xa03dd17b
    ensures Bits(0, 0x74e2f284, 0x854b3712, 0x928d99f6) == 0x864f3b72
    ensures Bits(0, 0x3020401c, 0x74e2f284, 0x854b3712) == 0xb56b7706
    ensures Bits(0, 0x5ed49596, 0x3020401c, 0x74e2f284) == 0x30226214
    ensures Bits(0, 0xdda9b9a6, 0x5ed49596, 0x3020401c) == 0x7c80d19e
    ensures Bits(0, 0xa1051895, 0xdda9b9a6, 0x5ed49596) == 0xdfd19d86
    ensures Bits(0, 0xe396856b, 0xa1051895, 0xdda9b9a6) == 0xbd2d3885
  {
    hide G, H, I;
  }

  lemma Bits2()
    ensures Bits(1, 0x72aff2e0, 0xe396856b, 0xa1051895) == 0x629795ea
    ensures Bits(1, 0x3e9e9126, 0x72aff2e0, 0xe396856b) == 0x32bff3a2
    ensures Bits(1, 0x4a1d804e, 0x3e9e9126, 0x72aff2e0) == 0x4e1d8146
    ensures Bits(1, 0xe25e1652, 0x4a1d804e, 0x3e9e9126) == 0x621f104a
    ensures Bits(1, 0xb5b204e4, 0xe25e1652, 0x4a1d804e) == 0xa0521654
    ensures Bits(1, 0x59a8ffda, 0xb5b204e4, 0xe25e1652) == 0x55a816f6
    ensures Bits(1, 0x6d002f1e, 0x59a8ffda, 0xb5b204e4) == 0x6d08ff1e
    ensures Bits(1, 0xabfc7920, 0x6d002f1e, 0x59a8ffda) == 0x2da87904
    ensures Bits(1, 0x47092c07, 0xabfc7920, 0x6d002f1e) == 0xc7fc7c26
    ensures Bits(1, 0xb7f268cf, 0x47092c07, 0xabfc7920) == 0xe7f16c07
    ensures Bits(1, 0x9388eff, 0xb7f268cf, 0x47092c07) == 0xb1fa4ccf
    ensures Bits(1, 0xfe1623b1, 0x9388eff, 0xb7f268cf) == 0xbe1aa6b1
    ensures Bits(1, 0x786acb8f, 0xfe1623b1, 0x9388eff) == 0xfe2eab8f
    ensures Bits(1, 0x790a77fb, 0x786acb8f, 0xfe1623b1) == 0x786aebbf
    ensures Bits(1, 0x9f47e4f8, 0x790a77fb, 0x786acb8f) == 0x1942f4f8
    ensures Bits(1, 0xa62884aa, 0x9f47e4f8, 0x790a77fb) == 0xa64d84aa
  {
    hide F, H, I;
  }

  lemma Bits3()
    ensures Bits(2, 0x726342d3, 0xa62884aa, 0x9f47e4f8) == 0x4b0c2281
    ensures Bits(2, 0xb3707ebf, 0x726342d3, 0xa62884aa) == 0x673bb8c6
    ensures Bits(2, 0x60127b2e, 0xb3707ebf, 0x726342d3) == 0xa1014742
    ensures Bits(2, 0x8d212ff5, 0x60127b2e, 0xb3707ebf) == 0x5e432a64
    ensures Bits(2, 0x3b0875c7, 0x8d212ff5, 0x60127b2e) == 0xd63b211c
    ensures Bits(2, 0x21b117b9, 0x3b0875c7, 0x8d212ff5) == 0x97984d8b
    ensures Bits(2, 0x6e7429d5, 0x21b117b9, 0x3b0875c7) == 0x74cd4bab
    ensures Bits(2, 0x3575227e, 0x6e7429d5, 0x21b117b9) == 0x7ab01c12
    ensures Bits(2, 0x5a2f5ea5, 0x3575227e, 0x6e7429d5) == 0x12e550e
    ensures Bits(2, 0x11de1779, 0x5a2f5ea5, 0x3575227e) == 0x7e846ba2
    ensures Bits(2, 0xfadcaa38, 0x11de1779, 0x5a2f5ea5) == 0xb12de3e4
    ensures Bits(2, 0x31c465ca, 0xfadcaa38, 0x11de1779) == 0xdac6d88b
    ensures Bits(2, 0x4c6124f4, 0x31c465ca, 0xfadcaa38) == 0x8779eb06
    ensures Bits(2, 0x7f2e507b, 0x4c6124f4, 0x31c465ca) == 0x28b1145
    ensures Bits(2, 0x99d9679d, 0x7f2e507b, 0x4c6124f4) == 0xaa961312
    ensures Bits(2, 0x8fae6399, 0x99d9679d, 0x7f2e507b) == 0x6959547f
  {
    hide F, G, I;
  }

  lemma Bits4()
    ensures Bits(3, 0x7beb9700, 0x8fae6399, 0x99d9679d) == 0xf041fcfb
    ensures Bits(3, 0x7b201df8, 0x7beb9700, 0x8fae6399) == 0x9a0afe
    ensures Bits(3, 0xf4e8e96e, 0x7b201df8, 0x7beb9700) == 0x8fdcf407
    ensures Bits(3, 0xb298cefd, 0xf4e8e96e, 0x7b201df8) == 0x42370791
    ensures Bits(3, 0x8bf025c4, 0xb298cefd, 0xf4e8e96e) == 0x396ff928
    ensures Bits(3, 0x6cc5e8a, 0x8bf025c4, 0xb298cefd) == 0xc41f5a4e
    ensures Bits(3, 0x5b0d97aa, 0x6cc5e8a, 0x8bf025c4) == 0x79c38131
    ensures Bits(3, 0x7d632dd0, 0x5b0d97aa, 0x6cc5e8a) == 0xa67e3a5f
    ensures Bits(3, 0x3bfa2c27, 0x7d632dd0, 0x5b0d97aa) == 0xc29941a7
    ensures Bits(3, 0x7f81cc35, 0x3bfa2c27, 0x7d632dd0) == 0xc467f218
    ensures Bits(3, 0x94454ab, 0x7f81cc35, 0x3bfa2c27) == 0xb2c41bce
    ensures Bits(3, 0x4f9dbe3f, 0x94454ab, 0x7f81cc35) == 0xc6bbeb54
    ensures Bits(3, 0x7327d604, 0x4f9dbe3f, 0x94454ab) == 0xb822416b
    ensures Bits(3, 0x310ade8f, 0x7327d604, 0x4f9dbe3f) == 0xc24d09cb
    ensures Bits(3, 0x624d8cb2, 0x310ade8f, 0x7327d604) == 0xdfd77374
    ensures Bits(3, 0xe484b9d8, 0x624d8cb2, 0x310ade8f) == 0x8cb8354a
  {
    hide F, G, H;
  }

  lemma Rows2()
    ensures After(2, 0x80636261, 0x18, Quad(0xc73741ef, 0x928d99f6, 0x207dc67b, 0x8bac3051))
  {
    hide Bits, After, KRow;
    NoSteps(0x80636261, 0x18);
    WordIndices();
    Bits1();
    Row(0, 0x80636261, 0x18, Quad(0x67452301, 0xefcdab89, 0x98badcfe, 0x10325476), (0, 1, 2, 3),
      (0xd76aa478, 0xe8c7b756, 0x242070db, 0xc1bdceee), (0x80, 0x1000, 0x20000, 0x400000),
      (0x2000000, 0x100000, 0x8000, 0x400), (0x98badcfe, 0xceebcbca, 0xdfc52fb9, 0xf4da86b6), (2, 1, 1, 2),
      (0x2b, 0xc7e, 0x13940, 0x299980), (0x1ce06d8, 0x5d796, 0x7d92, 0x12d), (1, 1, 1, 0),
      Quad(0xd6d117b4, 0x7ad956f2, 0x2f6fbd72, 0x344a8432));
    Row(1, 0x80636261, 0x18, Quad(0xd6d117b4, 0x7ad956f2, 0x2f6fbd72, 0x344a8432), (4, 5, 6, 7),
      (0xf57c0faf, 0x4787c62a, 0xa8304613, 0xfd469501), (0x80, 0x1000, 0x20000, 0x400000),
      (0x2000000, 0x100000, 0x8000, 0x400), (0x2e4b9472, 0x6a59fcf2, 0xf37546e3, 0xc72e01d5), (1, 0, 1, 2),
      (0x7d, 0xe62, 0x1962a, 0xfd37b), (0x98bbd5, 0xc474e, 0x4a68, 0x1c8), (0, 1, 1, 0),
      Quad(0xc73741ef, 0x928d99f6, 0x207dc67b, 0x8bac3051));
  }

  lemma Rows4()
    ensures After(4, 0x80636261, 0x18, Quad(0xdda9b9a6, 0x72aff2e0, 0xe396856b, 0xa1051895))
  {
    hide Bits, After, KRow;
    Rows2();
    WordIndices();
    Bits1();
    Row(2, 0x80636261, 0x18, Quad(0xc73741ef, 0x928d99f6, 0x207dc67b, 0x8bac3051), (8, 9, 10, 11),
      (0x698098d8, 0x8b44f7af, 0xffff5bb1, 0x895cd7be), (0x80, 0x1000, 0x20000, 0x400000),
      (0x2000000, 0x100000, 0x8000, 0x400), (0x92da073, 0xa03dd17b, 0x864f3b72, 0xb56b7706), (1, 1, 1, 1),
      (0x1c, 0xb72, 0x14d98, 0x34557a), (0x1e57b3a, 0xef97b, 0x5d9e, 0xba), (1, 1, 1, 0),
      Quad(0x854b3712, 0x5ed49596, 0x3020401c, 0x74e2f284));
    Row(3, 0x80636261, 0x18, Quad(0x854b3712, 0x5ed49596, 0x3020401c, 0x74e2f284), (12, 13, 14, 15),
      (0x6b901122, 0xfd987193, 0xa679438e, 0x49b40821), (0x80, 0x1000, 0x20000, 0x400000),
      (0x2000000, 0x100000, 0x8000, 0x400), (0x30226214, 0x7c80d19e, 0xdfd19d86, 0xbd2d3885), (1, 1, 1, 1),
      (0x10, 0xeef, 0x16cd6, 0x196d75), (0xfdaa48, 0xc35b5, 0x2148, 0x23c), (0, 1, 0, 1),
      Quad(0xdda9b9a6, 0x72aff2e0, 0xe396856b, 0xa1051895));
  }

  lemma Rows8()
    ensures After(8, 0x80636261, 0x18, Quad(0x790a77fb, 0x726342d3, 0xa62884aa, 0x9f47e4f8))
  {
    hide Bits, After, KRow;
    Rows4();
    WordIndices();
    Bits2();
    Row(4, 0x80636261, 0x18, Quad(0xdda9b9a6, 0x72aff2e0, 0xe396856b, 0xa1051895), (1, 6, 11, 0),
      (0xf61e2562, 0xc040b340, 0x265e5a51, 0xe9b6c7aa), (0x20, 0x200, 0x4000, 0x100000),
      (0x8000000, 0x800000, 0x40000, 0x1000), (0x629795ea, 0x32bff3a2, 0x4e1d8146, 0x621f104a), (2, 1, 1, 2),
      (6, 0x128, 0x1604, 0x3ee92), (0x65f74f2, 0x5bf77, 0x26102, 0xd35), (1, 0, 0, 1),
      Quad(0x3e9e9126, 0xb5b204e4, 0xe25e1652, 0x4a1d804e));
    Row(5, 0x80636261, 0x18, Quad(0x3e9e9126, 0xb5b204e4, 0xe25e1652, 0x4a1d804e), (5, 10, 15, 4),
      (0xd62f105d, 0x2441453, 0xd8a1e681, 0xe7d3fbc8), (0x20, 0x200, 0x4000, 0x100000),
      (0x8000000, 0x800000, 0x40000, 0x1000), (0xa0521654, 0x55a816f6, 0x6d08ff1e, 0x2da87904), (1, 0, 2, 1),
      (0x16, 0x144, 0xa02, 0xcb2e7), (0x51fb7d7, 0x9ab97, 0xfbf1, 0x9b0), (1, 0, 0, 1),
      Quad(0x59a8ffda, 0x47092c07, 0xabfc7920, 0x6d002f1e));
    Row(6, 0x80636261, 0x18, Quad(0x59a8ffda, 0x47092c07, 0xabfc7920, 0x6d002f1e), (9, 14, 3, 8),
      (0x21e1cde6, 0xc33707d6, 0xf4d50d87, 0x455a14ed), (0x20, 0x200, 0x4000, 0x100000),
      (0x8000000, 0x800000, 0x40000, 0x1000), (0xc7fc7c26, 0xe7f16c07, 0xb1fa4ccf, 0xbe1aa6b1), (1, 2, 2, 1),
      (8, 0x30, 0x14b2, 0x4a7de), (0x38749e6, 0x28a313, 0x3d376, 0x7a5), (0, 1, 0, 1),
      Quad(0xb7f268cf, 0x786acb8f, 0xfe1623b1, 0x9388eff));
    Row(7, 0x80636261, 0x18, Quad(0xb7f268cf, 0x786acb8f, 0xfe1623b1, 0x9388eff), (13, 2, 7, 12),
      (0xa9e3e905, 0xfcefa3f8, 0x676f02d9, 0x8d2a4c8a), (0x20, 0x200, 0x4000, 0x100000),
      (0x8000000, 0x800000, 0x40000, 0x1000), (0xfe2eab8f, 0x786aebbf, 0x1942f4f8, 0xa64d84aa), (2, 1, 1, 1),
      (0xc, 0xfd, 0x1fb2, 0xabe29), (0x4fd63, 0x131eb6, 0x1b82, 0xcc3), (0, 0, 0, 1),
      Quad(0x790a77fb, 0x726342d3, 0xa62884aa, 0x9f47e4f8));
  }

  lemma Rows12()
    ensures After(12, 0x80636261, 0x18, Quad(0x7f2e507b, 0x7beb9700, 0x8fae6399, 0x99d9679d))
  {
    hide Bits, After, KRow;
    Rows8();
    WordIndices();
    Bits3();
    Row(8, 0x80636261, 0x18, Quad(0x790a77fb, 0x726342d3, 0xa62884aa, 0x9f47e4f8), (5, 8, 11, 14),
      (0xfffa3942, 0x8771f681, 0x6d9d6122, 0xfde5380c), (0x10, 0x800, 0x10000, 0x800000),
      (0x10000000, 0x200000, 0x10000, 0x200), (0x4b0c2281, 0x673bb8c6, 0xa1014742, 0x5e432a64), (1, 1, 1, 1),
      (0xc, 0x46f, 0xb4c7, 0x6745d2), (0x410d3be, 0x15943f, 0x2d0e, 0x15b), (0, 1, 0, 1),
      Quad(0xb3707ebf, 0x3b0875c7, 0x8d212ff5, 0x60127b2e));
    Row(9, 0x80636261, 0x18, Quad(0xb3707ebf, 0x3b0875c7, 0x8d212ff5, 0x60127b2e), (1, 4, 7, 10),
      (0xa4beea44, 0x4bdecfa9, 0xf6bb4b60, 0xbebfbc70), (0x10, 0x800, 0x10000, 0x800000),
      (0x10000000, 0x200000, 0x10000, 0x200), (0xd63b211c, 0x97984d8b, 0x74cd4bab, 0x7ab01c12), (2, 1, 1, 1),
      (2, 0x21c, 0xf8a9, 0x3a3c27), (0xe6a8a1f, 0x99862, 0xc700, 0x49), (1, 0, 1, 0),
      Quad(0x21b117b9, 0x5a2f5ea5, 0x3575227e, 0x6e7429d5));
    Row(10, 0x80636261, 0x18, Quad(0x21b117b9, 0x5a2f5ea5, 0x3575227e, 0x6e7429d5), (13, 0, 3, 6),
      (0x289b7ec6, 0xeaa127fa, 0xd4ef3085, 0x4881d05), (0x10, 0x800, 0x10000, 0x800000),
      (0x10000000, 0x200000, 0x10000, 0x200), (0x12e550e, 0x7e846ba2, 0xb12de3e4, 0xdac6d88b), (0, 2, 1, 1),
      (4, 0x2bf, 0xbb92, 0x1cbf2a), (0xb7aeb8d, 0x1d1fd2, 0x36e7, 0x35), (1, 0, 1, 0),
      Quad(0x11de1779, 0x4c6124f4, 0x31c465ca, 0xfadcaa38));
    Row(11, 0x80636261, 0x18, Quad(0x11de1779, 0x4c6124f4, 0x31c465ca, 0xfadcaa38), (9, 12, 15, 2),
      (0xd9d4d039, 0xe6db99e5, 0x1fa27cf8, 0xc4ac5665), (0x10, 0x800, 0x10000, 0x800000),
      (0x10000000, 0x200000, 0x10000, 0x200), (0x8779eb06, 0x28b1145, 0xaa961312, 0x6959547f), (1, 1, 0, 1),
      (7, 0x722, 0xfbfc, 0x3d3367), (0x32cd2b8, 0x35562, 0xf5d4, 0x1d8), (0, 0, 1, 1),
      Quad(0x7f2e507b, 0x7beb9700, 0x8fae6399, 0x99d9679d));
  }

  lemma Rows16()
    ensures After(16, 0x80636261, 0x18, Quad(0x310ade8f, 0xc08226b3, 0xe484b9d8, 0x624d8cb2))
  {
    hide Bits, After, KRow;
    Rows12();
    WordIndices();
    Bits4();
    Row(12, 0x80636261, 0x18, Quad(0x7f2e507b, 0x7beb9700, 0x8fae6399, 0x99d9679d), (0, 7, 14, 5),
      (0xf4292244, 0x432aff97, 0xab9423a7, 0xfc93a039), (0x40, 0x400, 0x8000, 0x200000),
      (0x4000000, 0x400000, 0x20000, 0x800), (0xf041fcfb, 0x9a0afe, 0x8fdcf407, 0x42370791), (2, 0, 1, 1),
      (0x38, 0x376, 0x658f, 0x1756c7), (0x3fcd21b, 0x1e7232, 0x17b5f, 0x6ca), (1, 0, 1, 1),
      Quad(0x7b201df8, 0x8bf025c4, 0xb298cefd, 0xf4e8e96e));
    Row(13, 0x80636261, 0x18, Quad(0x7b201df8, 0x8bf025c4, 0xb298cefd, 0xf4e8e96e), (12, 3, 10, 1),
      (0x655b59c3, 0x8f0ccc92, 0xffeff47d, 0x85845dd1), (0x40, 0x400, 0x8000, 0x200000),
      (0x4000000, 0x400000, 0x20000, 0x800), (0x396ff928, 0xc41f5a4e, 0x79c38131, 0xa67e3a5f), (1, 2, 2, 1),
      (6, 0x120, 0x1626, 0x16fe57), (0x1eb70e3, 0x15104e, 0x44ab, 0x5f4), (1, 0, 0, 1),
      Quad(0x6cc5e8a, 0x3bfa2c27, 0x7d632dd0, 0x5b0d97aa));
    Row(14, 0x80636261, 0x18, Quad(0x6cc5e8a, 0x3bfa2c27, 0x7d632dd0, 0x5b0d97aa), (8, 15, 6, 13),
      (0x6fa87e4f, 0xfe2ce6e0, 0xa3014314, 0x4e0811a1), (0x40, 0x400, 0x8000, 0x200000),
      (0x4000000, 0x400000, 0x20000, 0x800), (0xc29941a7, 0xc467f218, 0xb2c41bce, 0xc6bbeb54), (1, 2, 1, 1),
      (0xe, 0x76, 0x6994, 0xa17c5), (0x10e1e80, 0x2270a2, 0x8cb2, 0x11c), (0, 1, 0, 0),
      Quad(0x7f81cc35, 0x7327d604, 0x4f9dbe3f, 0x94454ab));
    Row(15, 0x80636261, 0x18, Quad(0x7f81cc35, 0x7327d604, 0x4f9dbe3f, 0x94454ab), (4, 11, 2, 9),
      (0xf7537e82, 0xbd3af235, 0x2ad7d2bb, 0xeb86d391), (0x40, 0x400, 0x8000, 0x200000),
      (0x4000000, 0x400000, 0x20000, 0x800), (0xb822416b, 0xc24d09cb, 0xdfd77374, 0x8cb8354a), (2, 1, 1, 1),
      (0xb, 0x223, 0x2d26, 0x1d6cdb), (0x2f78c22, 0xc50ab, 0x1046e, 0x6df), (1, 0, 0, 1),
      Quad(0x310ade8f, 0xc08226b3, 0xe484b9d8, 0x624d8cb2));
  }
}
