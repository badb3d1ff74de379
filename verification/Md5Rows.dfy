/** Evaluating the 64 steps of MD5 on given words, four steps at a time, with the carries written out. */
module Md5Rows {
  import opened Md5Words
  import opened Md5Transform
  import opened Md5Context

  type Four = (nat, nat, nat, nat)

  /** The bitwise function of a round. */
  function Bits(round: nat, x: Word, y: Word, z: Word): Word {
    match round
    case 0 => F(x, y, z)
    case 1 => G(x, y, z)
    case 2 => H(x, y, z)
    case _ => I(x, y, z)
  }

  /** 2^s for the four shift amounts s of a round. */
  function Factors(round: nat): Four {
    match round
    case 0 => (0x80, 0x1000, 0x2_0000, 0x40_0000)
    case 1 => (0x20, 0x200, 0x4000, 0x10_0000)
    case 2 => (0x10, 0x800, 0x1_0000, 0x80_0000)
    case _ => (0x40, 0x400, 0x8000, 0x20_0000)
  }

  /** 2^(32 - s) */
  function Divisors(round: nat): Four {
    match round
    case 0 => (0x200_0000, 0x10_0000, 0x8000, 0x400)
    case 1 => (0x800_0000, 0x80_0000, 0x4_0000, 0x1000)
    case 2 => (0x1000_0000, 0x20_0000, 0x1_0000, 0x200)
    case _ => (0x400_0000, 0x40_0000, 0x2_0000, 0x800)
  }

  lemma SmallPowers()
    ensures Pow2(4) == 0x10 && Pow2(5) == 0x20 && Pow2(6) == 0x40 && Pow2(7) == 0x80
    ensures Pow2(9) == 0x200 && Pow2(10) == 0x400 && Pow2(11) == 0x800 && Pow2(12) == 0x1000
    ensures Pow2(14) == 0x4000 && Pow2(15) == 0x8000 && Pow2(16) == 0x1_0000 && Pow2(17) == 0x2_0000
    ensures Pow2(18) == 0x4_0000
  {
    assert Pow2(8) == 0x100;
    assert Pow2(12) == 0x1000;
    assert Pow2(16) == 0x1_0000;
  }

  lemma LargePowers()
    ensures Pow2(20) == 0x10_0000 && Pow2(21) == 0x20_0000 && Pow2(22) == 0x40_0000 && Pow2(23) == 0x80_0000
    ensures Pow2(25) == 0x200_0000 && Pow2(26) == 0x400_0000 && Pow2(27) == 0x800_0000 && Pow2(28) == 0x1000_0000
  {
    hide Pow2;
    SmallPowers();
    Pow2Adds(10, 10);
    Pow2Adds(10, 11);
    Pow2Adds(10, 12);
    Pow2Adds(11, 12);
    Pow2Adds(10, 15);
    Pow2Adds(10, 16);
    Pow2Adds(10, 17);
    Pow2Adds(14, 14);
  }

  lemma FactorsAre(round: nat)
    requires round < 4
    ensures
      var s, p, q := Shifts(round), Factors(round), Divisors(round);
      && p == (Pow2(s.0), Pow2(s.1), Pow2(s.2), Pow2(s.3))
      && q == (Pow2(32 - s.0), Pow2(32 - s.1), Pow2(32 - s.2), Pow2(32 - s.3))
  {
    hide Pow2;
    SmallPowers();
    LargePowers();
  }

  /** Of a message that fits one block only the first word and the length are not zero. */
  function ShortWord(w: Word, bits: Word, k: nat): Word {
    if k == 0 then w else if k == 14 then bits else 0
  }

  function ShortBlock(w: Word, bits: Word): (x: seq<Word>)
    ensures |x| == 16
  {
    seq(16, k requires 0 <= k => ShortWord(w, bits, k))
  }

  /** The registers after 4 * j steps. */
  ghost predicate After(j: nat, w: Word, bits: Word, r: Quad)
    requires j <= 16
  {
    Steps(4 * j, INITIAL, ShortBlock(w, bits)) == r
  }

  /** The sum before the rotation is high * q + low, c and d are what is carried out of 32 bits. */
  predicate Turns(a: Word, mix: Word, x: Word, t: Word, c: nat, p: nat, q: nat, high: nat, low: nat, b: Word, d: nat,
      r: Word) {
    && a + mix + x + t == high * q + low + c * 0x1_0000_0000
    && low < q && high < p
    && low * p + high + b == r + d * 0x1_0000_0000
  }

  lemma AddsUp(a: Word, mix: Word, x: Word, t: Word, sum: Word, c: nat)
    requires a + mix + x + t == sum + c * 0x1_0000_0000
    ensures Add(a, Add(Add(mix, x), t)) == sum
  {
    var u, v := Add(mix, x), Add(Add(mix, x), t);
    var k := (mix + x) / 0x1_0000_0000;
    var l := (u + t) / 0x1_0000_0000;
    Remainder(a + v, c - k - l, sum, 0x1_0000_0000);
  }

  lemma PartsOf(p: nat, q: nat, high: nat, low: nat)
    requires p * q == 0x1_0000_0000 && high < p && low < q
    ensures high * q + low < 0x1_0000_0000
    ensures (high * q + low) * p % 0x1_0000_0000 == low * p && (high * q + low) / q == high
  {
    var sum := high * q + low;
    ProductGrows(q, high, p - 1);
    ProductGrows(p, low, q - 1);
    assert q * (p - 1) == 0x1_0000_0000 - q && p * (q - 1) == 0x1_0000_0000 - p;
    Remainder(sum, high, low, q);
    calc {
      sum * p;
      high * q * p + low * p;
      high * (p * q) + low * p;
      0x1_0000_0000 * high + low * p;
    }
    Remainder(sum * p, high, low * p, 0x1_0000_0000);
  }

  lemma RotateParts(s: nat, p: nat, q: nat, high: nat, low: nat)
    requires 0 < s < 32 && p == Pow2(s) && q == Pow2(32 - s) && high < p && low < q
    ensures high * q + low < 0x1_0000_0000
    ensures RotateLeft(high * q + low, s) == low * p + high
  {
    hide Pow2;
    ShiftsMeet(s);
    PartsOf(p, q, high, low);
  }

  lemma MacroAdds(round: nat, a: Word, b: Word, c: Word, d: Word, x: Word, s: nat, t: Word, sum: Word, carry: nat,
      turned: Word, carry': nat, r: Word)
    requires 0 < s < 32 && round < 4 && turned == RotateLeft(sum, s)
    requires a + Bits(round, b, c, d) + x + t == sum + carry * 0x1_0000_0000
    requires turned + b == r + carry' * 0x1_0000_0000
    ensures Macro(round, a, b, c, d, x, s, t) == r
  {
    hide F, G, H, I, RotateLeft;
    AddsUp(a, Bits(round, b, c, d), x, t, sum, carry);
    Remainder(turned + b, carry', r, 0x1_0000_0000);
  }

  lemma MacroTurns(round: nat, a: Word, b: Word, c: Word, d: Word, x: Word, s: nat, t: Word, p: nat, q: nat,
      carry: nat, high: nat, low: nat, carry': nat, r: Word)
    requires 0 < s < 32 && round < 4 && p == Pow2(s) && q == Pow2(32 - s)
    requires Turns(a, Bits(round, b, c, d), x, t, carry, p, q, high, low, b, carry', r)
    ensures Macro(round, a, b, c, d, x, s, t) == r
  {
    hide Bits, Macro, Pow2, RotateLeft;
    RotateParts(s, p, q, high, low);
    MacroAdds(round, a, b, c, d, x, s, t, high * q + low, carry, low * p + high, carry', r);
  }

  /** The four steps of a row. */
  lemma Row(j: nat, w: Word, bits: Word, p: Quad, k: Four, t: (Word, Word, Word, Word), f: Four, q: Four,
      mix: (Word, Word, Word, Word), c: Four, high: Four, low: Four, d: Four, r: Quad)
    requires j < 16 && k == KRow(j) && t == TRow(j) && f == Factors(j / 4) && q == Divisors(j / 4)
    requires After(j, w, bits, p)
    requires Bits(j / 4, p.b, p.c, p.d) == mix.0 && Bits(j / 4, r.a, p.b, p.c) == mix.1
    requires Bits(j / 4, r.d, r.a, p.b) == mix.2 && Bits(j / 4, r.c, r.d, r.a) == mix.3
    requires Turns(p.a, mix.0, ShortWord(w, bits, k.0), t.0, c.0, f.0, q.0, high.0, low.0, p.b, d.0, r.a)
    requires Turns(p.d, mix.1, ShortWord(w, bits, k.1), t.1, c.1, f.1, q.1, high.1, low.1, r.a, d.1, r.d)
    requires Turns(p.c, mix.2, ShortWord(w, bits, k.2), t.2, c.2, f.2, q.2, high.2, low.2, r.d, d.2, r.c)
    requires Turns(p.b, mix.3, ShortWord(w, bits, k.3), t.3, c.3, f.3, q.3, high.3, low.3, r.c, d.3, r.b)
    ensures After(j + 1, w, bits, r)
  {
    hide Bits, Pow2, Factors, Divisors, Shifts, Turns, Macro, Steps, TRow, K;
    var x := ShortBlock(w, bits);
    FactorsAre(j / 4);
    FourMacros(j, INITIAL, x, k, t);
    var s := Shifts(j / 4);
    MacroTurns(j / 4, p.a, p.b, p.c, p.d, x[k.0], s.0, t.0, f.0, q.0, c.0, high.0, low.0, d.0, r.a);
    MacroTurns(j / 4, p.d, r.a, p.b, p.c, x[k.1], s.1, t.1, f.1, q.1, c.1, high.1, low.1, d.1, r.d);
    MacroTurns(j / 4, p.c, r.d, r.a, p.b, x[k.2], s.2, t.2, f.2, q.2, c.2, high.2, low.2, d.2, r.c);
    MacroTurns(j / 4, p.b, r.c, r.d, r.a, x[k.3], s.3, t.3, f.3, q.3, c.3, high.3, low.3, d.3, r.b);
  }

  lemma NoSteps(w: Word, bits: Word)
    ensures After(0, w, bits, Quad(0x67452301, 0xefcdab89, 0x98badcfe, 0x10325476))
  {
  }
}
