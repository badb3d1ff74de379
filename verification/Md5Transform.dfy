/** The MD5 compression function: the table-driven definition of section 3.4 of RFC 1321,
    and the hand-unrolled form. */
module Md5Transform {
  import opened Md5Words

  datatype Quad = Quad(a: Word, b: Word, c: Word, d: Word)

  const S11 := 7
  const S12 := 12
  const S13 := 17
  const S14 := 22
  const S21 := 5
  const S22 := 9
  const S23 := 14
  const S24 := 20
  const S31 := 4
  const S32 := 11
  const S33 := 16
  const S34 := 23
  const S41 := 6
  const S42 := 10
  const S43 := 15
  const S44 := 21

  // ----- the table-driven definition

  /** The additive constants, four to a row. */
  function TRow(j: nat): (Word, Word, Word, Word)
    requires j < 16
  {
    match j
    case 0 => (0xd76aa478, 0xe8c7b756, 0x242070db, 0xc1bdceee)
    case 1 => (0xf57c0faf, 0x4787c62a, 0xa8304613, 0xfd469501)
    case 2 => (0x698098d8, 0x8b44f7af, 0xffff5bb1, 0x895cd7be)
    case 3 => (0x6b901122, 0xfd987193, 0xa679438e, 0x49b40821)
    case 4 => (0xf61e2562, 0xc040b340, 0x265e5a51, 0xe9b6c7aa)
    case 5 => (0xd62f105d, 0x2441453, 0xd8a1e681, 0xe7d3fbc8)
    case 6 => (0x21e1cde6, 0xc33707d6, 0xf4d50d87, 0x455a14ed)
    case 7 => (0xa9e3e905, 0xfcefa3f8, 0x676f02d9, 0x8d2a4c8a)
    case 8 => (0xfffa3942, 0x8771f681, 0x6d9d6122, 0xfde5380c)
    case 9 => (0xa4beea44, 0x4bdecfa9, 0xf6bb4b60, 0xbebfbc70)
    case 10 => (0x289b7ec6, 0xeaa127fa, 0xd4ef3085, 0x4881d05)
    case 11 => (0xd9d4d039, 0xe6db99e5, 0x1fa27cf8, 0xc4ac5665)
    case 12 => (0xf4292244, 0x432aff97, 0xab9423a7, 0xfc93a039)
    case 13 => (0x655b59c3, 0x8f0ccc92, 0xffeff47d, 0x85845dd1)
    case 14 => (0x6fa87e4f, 0xfe2ce6e0, 0xa3014314, 0x4e0811a1)
    case _ => (0xf7537e82, 0xbd3af235, 0x2ad7d2bb, 0xeb86d391)
  }

  function T(i: nat): Word
    requires i < 64
  {
    var row := TRow(i / 4);
    if i % 4 == 0 then row.0 else if i % 4 == 1 then row.1 else if i % 4 == 2 then row.2 else row.3
  }

  /** The shift amounts: four per round, used cyclically. */
  function S(i: nat): (s: nat)
    requires i < 64
    ensures 0 < s < 32
  {
    if i < 16 then [S11, S12, S13, S14][i % 4]
    else if i < 32 then [S21, S22, S23, S24][i % 4]
    else if i < 48 then [S31, S32, S33, S34][i % 4]
    else [S41, S42, S43, S44][i % 4]
  }

  /** The word of the block that step i reads, as a formula. */
  function K(i: nat): (k: nat)
    requires i < 64
    ensures k < 16
  {
    if i < 16 then i
    else if i < 32 then (5 * i + 1) % 16
    else if i < 48 then (3 * i + 5) % 16
    else 7 * i % 16
  }

  function KRow(j: nat): (nat, nat, nat, nat)
    requires j < 16
  {
    (K(4 * j), K(4 * j + 1), K(4 * j + 2), K(4 * j + 3))
  }

  function Mix(i: nat, x: Word, y: Word, z: Word): Word {
    if i < 16 then F(x, y, z) else if i < 32 then G(x, y, z) else if i < 48 then H(x, y, z) else I(x, y, z)
  }

  /** [abcd k s i]: a = b + ((a + f(b, c, d) + X[k] + T[i]) <<< s). */
  function Op(i: nat, a: Word, b: Word, c: Word, d: Word, x: Word): Word
    requires i < 64
  {
    Add(RotateLeft(Add(a, Add(Add(Mix(i, b, c, d), x), T(i))), S(i)), b)
  }

  /** One step; the registers rotate instead of being renamed. */
  function Step(i: nat, q: Quad, x: seq<Word>): Quad
    requires i < 64 && |x| == 16
  {
    Quad(q.d, Op(i, q.a, q.b, q.c, q.d, x[K(i)]), q.b, q.c)
  }

  function Steps(n: nat, q: Quad, x: seq<Word>): Quad
    requires n <= 64 && |x| == 16
  {
    if n == 0 then q else Step(n - 1, Steps(n - 1, q, x), x)
  }

  /** All 64 steps. */
  function AllSteps(q: Quad, x: seq<Word>): Quad
    requires |x| == 16
  {
    Steps(4 * |x|, q, x)
  }

  function AddQuads(p: Quad, q: Quad): Quad {
    Quad(Add(p.a, q.a), Add(p.b, q.b), Add(p.c, q.c), Add(p.d, q.d))
  }

  type Block = b: seq<Byte> | |b| == 64 witness seq(64, _ => 0)

  /** The state after one 64-byte block. */
  function Compress(q: Quad, block: Block): Quad {
    AddQuads(q, AllSteps(q, DecodeBytes(block)))
  }

  // ----- the steps before the final additions are invertible

  function Unstep(i: nat, q: Quad, x: seq<Word>): Quad
    requires i < 64 && |x| == 16
  {
    var sum := RotateRight(Sub(q.b, q.c), S(i));
    Quad(Sub(sum, Add(Add(Mix(i, q.c, q.d, q.a), x[K(i)]), T(i))), q.c, q.d, q.a)
  }

  function Unsteps(n: nat, q: Quad, x: seq<Word>): Quad
    requires n <= 64 && |x| == 16
  {
    if n == 0 then q else Unsteps(n - 1, Unstep(n - 1, q, x), x)
  }

  lemma StepCancels(i: nat, q: Quad, x: seq<Word>)
    requires i < 64 && |x| == 16
    ensures Unstep(i, Step(i, q, x), x) == q
    ensures Step(i, Unstep(i, q, x), x) == q
  {
    hide T, K, S, Mix, Add, Sub, RotateLeft, RotateRight;
    var addend := Add(Add(Mix(i, q.b, q.c, q.d), x[K(i)]), T(i));
    var sum := Add(q.a, addend);
    AddSubCancel(q.a, addend);
    RotationsCancel(sum, S(i));
    AddSubCancel(RotateLeft(sum, S(i)), q.b);

    var back := Add(Add(Mix(i, q.c, q.d, q.a), x[K(i)]), T(i));
    var turned := Sub(q.b, q.c);
    AddSubCancel(q.b, q.c);
    RotationsCancelBack(turned, S(i));
    AddSubCancel(RotateRight(turned, S(i)), back);
  }

  /** For a fixed block the 64 steps are a bijection of the 128-bit states. */
  lemma {:induction false} StepsInvertible(n: nat, q: Quad, x: seq<Word>)
    requires n <= 64 && |x| == 16
    ensures Unsteps(n, Steps(n, q, x), x) == q
    ensures Steps(n, Unsteps(n, q, x), x) == q
  {
    hide Step, Unstep;
    if n == 0 {
    } else {
      StepCancels(n - 1, Steps(n - 1, q, x), x);
      StepsInvertible(n - 1, q, x);
      StepsInvertible(n - 1, Unstep(n - 1, q, x), x);
      StepCancels(n - 1, q, x);
    }
  }

  // ----- the unrolled form

  function FF(a: Word, b: Word, c: Word, d: Word, x: Word, s: nat, ac: Word): Word
    requires 0 < s < 32
  {
    Add(RotateLeft(Add(a, Add(Add(F(b, c, d), x), ac)), s), b)
  }

  function GG(a: Word, b: Word, c: Word, d: Word, x: Word, s: nat, ac: Word): Word
    requires 0 < s < 32
  {
    Add(RotateLeft(Add(a, Add(Add(G(b, c, d), x), ac)), s), b)
  }

  function HH(a: Word, b: Word, c: Word, d: Word, x: Word, s: nat, ac: Word): Word
    requires 0 < s < 32
  {
    Add(RotateLeft(Add(a, Add(Add(H(b, c, d), x), ac)), s), b)
  }

  function II(a: Word, b: Word, c: Word, d: Word, x: Word, s: nat, ac: Word): Word
    requires 0 < s < 32
  {
    Add(RotateLeft(Add(a, Add(Add(I(b, c, d), x), ac)), s), b)
  }

  /** The macro that a round uses. */
  function Macro(round: nat, a: Word, b: Word, c: Word, d: Word, x: Word, s: nat, ac: Word): Word
    requires 0 < s < 32
  {
    match round
    case 0 => FF(a, b, c, d, x, s, ac)
    case 1 => GG(a, b, c, d, x, s, ac)
    case 2 => HH(a, b, c, d, x, s, ac)
    case _ => II(a, b, c, d, x, s, ac)
  }

  /** The four shift amounts of a round. */
  function Shifts(round: nat): (s: (nat, nat, nat, nat))
    ensures 0 < s.0 < 32 && 0 < s.1 < 32 && 0 < s.2 < 32 && 0 < s.3 < 32
  {
    match round
    case 0 => (S11, S12, S13, S14)
    case 1 => (S21, S22, S23, S24)
    case 2 => (S31, S32, S33, S34)
    case _ => (S41, S42, S43, S44)
  }

  lemma ShiftsAre(j: nat)
    requires j < 16
    ensures Shifts(j / 4) == (S(4 * j), S(4 * j + 1), S(4 * j + 2), S(4 * j + 3))
  {
  }

  lemma OpIsMacro(i: nat, a: Word, b: Word, c: Word, d: Word, x: Word)
    requires i < 64
    ensures Op(i, a, b, c, d, x) == Macro(i / 16, a, b, c, d, x, S(i), T(i))
  {
    hide T, S, F, G, H, I, RotateLeft, Add;
  }

  /** Four steps bring the registers back to their places. */
  lemma FourSteps(n: nat, q: Quad, x: seq<Word>)
    requires n + 4 <= 64 && |x| == 16
    ensures
      var p := Steps(n, q, x);
      var a := Op(n, p.a, p.b, p.c, p.d, x[K(n)]);
      var d := Op(n + 1, p.d, a, p.b, p.c, x[K(n + 1)]);
      var c := Op(n + 2, p.c, d, a, p.b, x[K(n + 2)]);
      var b := Op(n + 3, p.b, c, d, a, x[K(n + 3)]);
      Steps(n + 4, q, x) == Quad(a, b, c, d)
  {
    hide Op, K;
    var p := Steps(n, q, x);
    var a := Op(n, p.a, p.b, p.c, p.d, x[K(n)]);
    var d := Op(n + 1, p.d, a, p.b, p.c, x[K(n + 1)]);
    var c := Op(n + 2, p.c, d, a, p.b, x[K(n + 2)]);
    assert Steps(n + 1, q, x) == Quad(p.d, a, p.b, p.c);
    assert Steps(n + 2, q, x) == Quad(p.c, d, a, p.b);
    assert Steps(n + 3, q, x) == Quad(p.b, c, d, a);
  }

  /** Four macro calls of a round, as the code spells them out. */
  lemma FourMacros(j: nat, q: Quad, x: seq<Word>, k: (nat, nat, nat, nat), t: (Word, Word, Word, Word))
    requires j < 16 && |x| == 16
    requires k == KRow(j) && t == TRow(j)
    ensures
      var p := Steps(4 * j, q, x);
      var s := Shifts(j / 4);
      var a := Macro(j / 4, p.a, p.b, p.c, p.d, x[k.0], s.0, t.0);
      var d := Macro(j / 4, p.d, a, p.b, p.c, x[k.1], s.1, t.1);
      var c := Macro(j / 4, p.c, d, a, p.b, x[k.2], s.2, t.2);
      var b := Macro(j / 4, p.b, c, d, a, x[k.3], s.3, t.3);
      Steps(4 * j + 4, q, x) == Quad(a, b, c, d)
  {
    hide Op, TRow, K, Macro, Shifts, S, Steps;
    var n := 4 * j;
    FourSteps(n, q, x);
    ShiftsAre(j);
    var p := Steps(n, q, x);
    OpIsMacro(n, p.a, p.b, p.c, p.d, x[k.0]);
    var a := Op(n, p.a, p.b, p.c, p.d, x[k.0]);
    OpIsMacro(n + 1, p.d, a, p.b, p.c, x[k.1]);
    var d := Op(n + 1, p.d, a, p.b, p.c, x[k.1]);
    OpIsMacro(n + 2, p.c, d, a, p.b, x[k.2]);
    var c := Op(n + 2, p.c, d, a, p.b, x[k.2]);
    OpIsMacro(n + 3, p.b, c, d, a, x[k.3]);
  }

  lemma StepsStart(q: Quad, x: seq<Word>)
    requires |x| == 16
    ensures Steps(0, q, x) == q
  {
  }

  /** The formula for K gives the word indices that the unrolled code spells out. */
  lemma WordIndices()
    ensures KRow(0) == (0, 1, 2, 3)
    ensures KRow(1) == (4, 5, 6, 7)
    ensures KRow(2) == (8, 9, 10, 11)
    ensures KRow(3) == (12, 13, 14, 15)
    ensures KRow(4) == (1, 6, 11, 0)
    ensures KRow(5) == (5, 10, 15, 4)
    ensures KRow(6) == (9, 14, 3, 8)
    ensures KRow(7) == (13, 2, 7, 12)
    ensures KRow(8) == (5, 8, 11, 14)
    ensures KRow(9) == (1, 4, 7, 10)
    ensures KRow(10) == (13, 0, 3, 6)
    ensures KRow(11) == (9, 12, 15, 2)
    ensures KRow(12) == (0, 7, 14, 5)
    ensures KRow(13) == (12, 3, 10, 1)
    ensures KRow(14) == (8, 15, 6, 13)
    ensures KRow(15) == (4, 11, 2, 9)
  {
  }

  /** The 64 steps of MD5Transform, one statement each. */
  method Rounds(q: Quad, x: seq<Word>) returns (r: Quad)
    requires |x| == 16
    ensures r == AllSteps(q, x)
  {
    hide KRow, FF, GG, HH, II, Steps;
    StepsStart(q, x);
    WordIndices();
    var a, b, c, d := q.a, q.b, q.c, q.d;

    // Round 1
    a := FF(a, b, c, d, x[0], S11, 0xd76aa478);
    d := FF(d, a, b, c, x[1], S12, 0xe8c7b756);
    c := FF(c, d, a, b, x[2], S13, 0x242070db);
    b := FF(b, c, d, a, x[3], S14, 0xc1bdceee);
    FourMacros(0, q, x, (0, 1, 2, 3), (0xd76aa478, 0xe8c7b756, 0x242070db, 0xc1bdceee));
    a := FF(a, b, c, d, x[4], S11, 0xf57c0faf);
    d := FF(d, a, b, c, x[5], S12, 0x4787c62a);
    c := FF(c, d, a, b, x[6], S13, 0xa8304613);
    b := FF(b, c, d, a, x[7], S14, 0xfd469501);
    FourMacros(1, q, x, (4, 5, 6, 7), (0xf57c0faf, 0x4787c62a, 0xa8304613, 0xfd469501));
    a := FF(a, b, c, d, x[8], S11, 0x698098d8);
    d := FF(d, a, b, c, x[9], S12, 0x8b44f7af);
    c := FF(c, d, a, b, x[10], S13, 0xffff5bb1);
    b := FF(b, c, d, a, x[11], S14, 0x895cd7be);
    FourMacros(2, q, x, (8, 9, 10, 11), (0x698098d8, 0x8b44f7af, 0xffff5bb1, 0x895cd7be));
    a := FF(a, b, c, d, x[12], S11, 0x6b901122);
    d := FF(d, a, b, c, x[13], S12, 0xfd987193);
    c := FF(c, d, a, b, x[14], S13, 0xa679438e);
    b := FF(b, c, d, a, x[15], S14, 0x49b40821);
    FourMacros(3, q, x, (12, 13, 14, 15), (0x6b901122, 0xfd987193, 0xa679438e, 0x49b40821));

    // Round 2
    a := GG(a, b, c, d, x[1], S21, 0xf61e2562);
    d := GG(d, a, b, c, x[6], S22, 0xc040b340);
    c := GG(c, d, a, b, x[11], S23, 0x265e5a51);
    b := GG(b, c, d, a, x[0], S24, 0xe9b6c7aa);
    FourMacros(4, q, x, (1, 6, 11, 0), (0xf61e2562, 0xc040b340, 0x265e5a51, 0xe9b6c7aa));
    a := GG(a, b, c, d, x[5], S21, 0xd62f105d);
    d := GG(d, a, b, c, x[10], S22, 0x2441453);
    c := GG(c, d, a, b, x[15], S23, 0xd8a1e681);
    b := GG(b, c, d, a, x[4], S24, 0xe7d3fbc8);
    FourMacros(5, q, x, (5, 10, 15, 4), (0xd62f105d, 0x2441453, 0xd8a1e681, 0xe7d3fbc8));
    a := GG(a, b, c, d, x[9], S21, 0x21e1cde6);
    d := GG(d, a, b, c, x[14], S22, 0xc33707d6);
    c := GG(c, d, a, b, x[3], S23, 0xf4d50d87);
    b := GG(b, c, d, a, x[8], S24, 0x455a14ed);
    FourMacros(6, q, x, (9, 14, 3, 8), (0x21e1cde6, 0xc33707d6, 0xf4d50d87, 0x455a14ed));
    a := GG(a, b, c, d, x[13], S21, 0xa9e3e905);
    d := GG(d, a, b, c, x[2], S22, 0xfcefa3f8);
    c := GG(c, d, a, b, x[7], S23, 0x676f02d9);
    b := GG(b, c, d, a, x[12], S24, 0x8d2a4c8a);
    FourMacros(7, q, x, (13, 2, 7, 12), (0xa9e3e905, 0xfcefa3f8, 0x676f02d9, 0x8d2a4c8a));

    // Round 3
    a := HH(a, b, c, d, x[5], S31, 0xfffa3942);
    d := HH(d, a, b, c, x[8], S32, 0x8771f681);
    c := HH(c, d, a, b, x[11], S33, 0x6d9d6122);
    b := HH(b, c, d, a, x[14], S34, 0xfde5380c);
    FourMacros(8, q, x, (5, 8, 11, 14), (0xfffa3942, 0x8771f681, 0x6d9d6122, 0xfde5380c));
    a := HH(a, b, c, d, x[1], S31, 0xa4beea44);
    d := HH(d, a, b, c, x[4], S32, 0x4bdecfa9);
    c := HH(c, d, a, b, x[7], S33, 0xf6bb4b60);
    b := HH(b, c, d, a, x[10], S34, 0xbebfbc70);
    FourMacros(9, q, x, (1, 4, 7, 10), (0xa4beea44, 0x4bdecfa9, 0xf6bb4b60, 0xbebfbc70));
    a := HH(a, b, c, d, x[13], S31, 0x289b7ec6);
    d := HH(d, a, b, c, x[0], S32, 0xeaa127fa);
    c := HH(c, d, a, b, x[3], S33, 0xd4ef3085);
    b := HH(b, c, d, a, x[6], S34, 0x4881d05);
    FourMacros(10, q, x, (13, 0, 3, 6), (0x289b7ec6, 0xeaa127fa, 0xd4ef3085, 0x4881d05));
    a := HH(a, b, c, d, x[9], S31, 0xd9d4d039);
    d := HH(d, a, b, c, x[12], S32, 0xe6db99e5);
    c := HH(c, d, a, b, x[15], S33, 0x1fa27cf8);
    b := HH(b, c, d, a, x[2], S34, 0xc4ac5665);
    FourMacros(11, q, x, (9, 12, 15, 2), (0xd9d4d039, 0xe6db99e5, 0x1fa27cf8, 0xc4ac5665));

    // Round 4
    a := II(a, b, c, d, x[0], S41, 0xf4292244);
    d := II(d, a, b, c, x[7], S42, 0x432aff97);
    c := II(c, d, a, b, x[14], S43, 0xab9423a7);
    b := II(b, c, d, a, x[5], S44, 0xfc93a039);
    FourMacros(12, q, x, (0, 7, 14, 5), (0xf4292244, 0x432aff97, 0xab9423a7, 0xfc93a039));
    a := II(a, b, c, d, x[12], S41, 0x655b59c3);
    d := II(d, a, b, c, x[3], S42, 0x8f0ccc92);
    c := II(c, d, a, b, x[10], S43, 0xffeff47d);
    b := II(b, c, d, a, x[1], S44, 0x85845dd1);
    FourMacros(13, q, x, (12, 3, 10, 1), (0x655b59c3, 0x8f0ccc92, 0xffeff47d, 0x85845dd1));
    a := II(a, b, c, d, x[8], S41, 0x6fa87e4f);
    d := II(d, a, b, c, x[15], S42, 0xfe2ce6e0);
    c := II(c, d, a, b, x[6], S43, 0xa3014314);
    b := II(b, c, d, a, x[13], S44, 0x4e0811a1);
    FourMacros(14, q, x, (8, 15, 6, 13), (0x6fa87e4f, 0xfe2ce6e0, 0xa3014314, 0x4e0811a1));
    a := II(a, b, c, d, x[4], S41, 0xf7537e82);
    d := II(d, a, b, c, x[11], S42, 0xbd3af235);
    c := II(c, d, a, b, x[2], S43, 0x2ad7d2bb);
    b := II(b, c, d, a, x[9], S44, 0xeb86d391);
    FourMacros(15, q, x, (4, 11, 2, 9), (0xf7537e82, 0xbd3af235, 0x2ad7d2bb, 0xeb86d391));

    r := Quad(a, b, c, d);
  }

  /** MD5Transform: replaces the state by its compression with the block of input at offset. */
  method Transform(state: array<Word>, input: array<Byte>, offset: nat)
    requires state.Length == 4 && offset + 64 <= input.Length
    modifies state
    ensures StateOf(state[..]) == Compress(old(StateOf(state[..])), input[offset..offset + 64])
  {
    hide Steps, DecodeBytes;
    var x := new Word[16];
    Decode(x, input, offset, 64);
    assert x[..16] == x[..];
    var r := Rounds(Quad(state[0], state[1], state[2], state[3]), x[..]);
    state[0] := Add(state[0], r.a);
    state[1] := Add(state[1], r.b);
    state[2] := Add(state[2], r.c);
    state[3] := Add(state[3], r.d);
  }

  function StateOf(s: seq<Word>): Quad
    requires |s| == 4
  {
    Quad(s[0], s[1], s[2], s[3])
  }
}
