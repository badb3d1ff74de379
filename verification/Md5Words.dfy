/** Bytes, 32-bit words, shifts and rotations, and the byte order of section 2 of RFC 1321. */
module Md5Words {
  newtype Byte = n: int | 0 <= n < 0x100

  /** UINT4, as documented: a four-byte unsigned word. */
  type Word = n: int | 0 <= n < 0x1_0000_0000

  /** Addition wraps at 32 bits. */
  function Add(x: Word, y: Word): Word {
    (x + y) % 0x1_0000_0000
  }

  function Sub(x: Word, y: Word): Word {
    (x - y) % 0x1_0000_0000
  }

  lemma AddSubCancel(x: Word, y: Word)
    ensures Sub(Add(x, y), y) == x
    ensures Add(Sub(x, y), y) == x
  {
  }

  // ----- the four bitwise functions of section 3.4

  /** Takes y on the bits of x and z on the others. */
  function BitsF(x: bv32, y: bv32, z: bv32): (r: bv32)
    ensures r & x == y & x && r & !x == z & !x
  {
    (x & y) | (!x & z)
  }

  /** The same with z choosing between x and y. */
  function BitsG(x: bv32, y: bv32, z: bv32): (r: bv32)
    ensures r & z == x & z && r & !z == y & !z
  {
    (x & z) | (y & !z)
  }

  /** Takes x where y and z agree and its complement where they differ. */
  function BitsH(x: bv32, y: bv32, z: bv32): (r: bv32)
    ensures r & !(y ^ z) == x & !(y ^ z) && r & (y ^ z) == !x & (y ^ z)
  {
    x ^ y ^ z
  }

  /** Takes y where z is set and x is not, and its complement elsewhere. */
  function BitsI(x: bv32, y: bv32, z: bv32): (r: bv32)
    ensures r & (!x & z) == y & (!x & z) && r & !(!x & z) == !y & !(!x & z)
  {
    y ^ (x | !z)
  }

  function F(x: Word, y: Word, z: Word): Word {
    BitsF(x as bv32, y as bv32, z as bv32) as int
  }

  function G(x: Word, y: Word, z: Word): Word {
    BitsG(x as bv32, y as bv32, z as bv32) as int
  }

  function H(x: Word, y: Word, z: Word): Word {
    BitsH(x as bv32, y as bv32, z as bv32) as int
  }

  function I(x: Word, y: Word, z: Word): Word {
    BitsI(x as bv32, y as bv32, z as bv32) as int
  }

  // ----- shifts and rotations: a shift by n is a product or quotient by 2^n

  function Pow2(n: nat): (p: nat)
    ensures p > 0
  {
    if n == 0 then 1 else 2 * Pow2(n - 1)
  }

  lemma {:induction false} Pow2Adds(m: nat, n: nat)
    ensures Pow2(m) * Pow2(n) == Pow2(m + n)
  {
    if m == 0 {
    } else {
      calc {
        Pow2(m) * Pow2(n);
        (2 * Pow2(m - 1)) * Pow2(n);
        2 * (Pow2(m - 1) * Pow2(n));
        { Pow2Adds(m - 1, n); }
        2 * Pow2(m - 1 + n);
        Pow2(m + n);
      }
    }
  }

  lemma Pow2Of32()
    ensures Pow2(32) == 0x1_0000_0000
  {
    assert Pow2(4) == 16;
    Pow2Adds(4, 4);
    Pow2Adds(8, 8);
    Pow2Adds(16, 16);
  }

  lemma ShiftsMeet(n: nat)
    requires n <= 32
    ensures Pow2(n) * Pow2(32 - n) == 0x1_0000_0000
  {
    Pow2Of32();
    Pow2Adds(n, 32 - n);
  }

  /** The high bits that a left shift by p == 2^n drops are those a right shift by 32 - n keeps. */
  lemma ShiftParts(x: Word, p: nat, q: nat)
    requires p * q == 0x1_0000_0000
    ensures p > 0 && q > 0
    ensures (x * p) % 0x1_0000_0000 == (x % q) * p
    ensures (x % q) * p + x / q < 0x1_0000_0000
    ensures x / q < p
  {
    var high, low := x / q, x % q;
    assert x == q * high + low;
    assert high < p by {
      if high >= p { ProductGrows(q, p, high); }
    }
    assert low * p <= (q - 1) * p == 0x1_0000_0000 - p;
    calc {
      x * p;
      (q * high + low) * p;
      (q * high) * p + low * p;
      (p * q) * high + low * p;
    }
    Remainder(x * p, high, low * p, 0x1_0000_0000);
  }

  lemma ProductGrows(k: nat, m: nat, n: nat)
    requires m <= n
    ensures k * m <= k * n
  {
  }

  lemma Remainder(y: nat, quotient: nat, remainder: nat, divisor: nat)
    requires y == divisor * quotient + remainder && remainder < divisor
    ensures y / divisor == quotient && y % divisor == remainder
  {
    if y / divisor < quotient {
      ProductGrows(divisor, y / divisor + 1, quotient);
    } else if y / divisor > quotient {
      ProductGrows(divisor, quotient + 1, y / divisor);
    }
  }

  /** (x << n) | (x >> (32 - n)): the two parts have no bit in common, so "or" is a sum. */
  function RotateLeft(x: Word, n: nat): Word
    requires 0 < n < 32
  {
    ShiftsMeet(n);
    ShiftParts(x, Pow2(n), Pow2(32 - n));
    (x * Pow2(n)) % 0x1_0000_0000 + x / Pow2(32 - n)
  }

  function RotateRight(x: Word, n: nat): Word
    requires 0 < n < 32
  {
    RotateLeft(x, 32 - n)
  }

  lemma PartsSwapBack(x: Word, p: nat, q: nat)
    requires p * q == 0x1_0000_0000 && p > 0 && q > 0
    ensures var y := (x * p) % 0x1_0000_0000 + x / q;
            0 <= y < 0x1_0000_0000 && (y * q) % 0x1_0000_0000 + y / p == x
  {
    ShiftParts(x, p, q);
    var high, low := x / q, x % q;
    var y := p * low + high;
    Remainder(y, low, high, p);
    assert y == (x * p) % 0x1_0000_0000 + x / q;
    ShiftParts(y, q, p);
    calc {
      (y * q) % 0x1_0000_0000 + y / p;
      (y % p) * q + y / p;
      high * q + low;
      x;
    }
  }

  lemma RotationsCancel(x: Word, n: nat)
    requires 0 < n < 32
    ensures RotateRight(RotateLeft(x, n), n) == x
  {
    hide Pow2;
    ShiftsMeet(n);
    PartsSwapBack(x, Pow2(n), Pow2(32 - n));
    assert 32 - (32 - n) == n;
  }

  lemma RotationsCancelBack(x: Word, n: nat)
    requires 0 < n < 32
    ensures RotateLeft(RotateRight(x, n), n) == x
  {
    RotationsCancel(x, 32 - n);
  }

  // ----- byte order: a word is four bytes, low-order byte first

  function WordOf(b0: Byte, b1: Byte, b2: Byte, b3: Byte): Word {
    b0 as int + b1 as int * 0x100 + b2 as int * 0x1_0000 + b3 as int * 0x100_0000
  }

  /** Byte k of a word: (w >> 8k) & 0xff. */
  function ByteOf(w: Word, k: nat): Byte
    requires k < 4
  {
    if k == 0 then (w % 0x100) as Byte
    else if k == 1 then ((w / 0x100) % 0x100) as Byte
    else if k == 2 then ((w / 0x1_0000) % 0x100) as Byte
    else ((w / 0x100_0000) % 0x100) as Byte
  }

  function EncodeWords(ws: seq<Word>): (bs: seq<Byte>)
    ensures |bs| == 4 * |ws|
  {
    seq(4 * |ws|, j requires 0 <= j < 4 * |ws| => ByteOf(ws[j / 4], j % 4))
  }

  function DecodeBytes(bs: seq<Byte>): (ws: seq<Word>)
    requires |bs| % 4 == 0
    ensures |ws| == |bs| / 4
  {
    seq(|bs| / 4, i requires 0 <= i < |bs| / 4 => WordOf(bs[4 * i], bs[4 * i + 1], bs[4 * i + 2], bs[4 * i + 3]))
  }

  lemma WordOfItsBytes(w: Word)
    ensures WordOf(ByteOf(w, 0), ByteOf(w, 1), ByteOf(w, 2), ByteOf(w, 3)) == w
  {
    var w1 := w / 0x100;
    var w2 := w1 / 0x100;
    var w3 := w2 / 0x100;
    Remainder(w, w2, w1 % 0x100 * 0x100 + w % 0x100, 0x1_0000);
    Remainder(w, w3, w2 % 0x100 * 0x1_0000 + w1 % 0x100 * 0x100 + w % 0x100, 0x100_0000);
    Remainder(w3, 0, w3, 0x100);
  }

  lemma BytesOfItsWord(b0: Byte, b1: Byte, b2: Byte, b3: Byte)
    ensures var w := WordOf(b0, b1, b2, b3);
            ByteOf(w, 0) == b0 && ByteOf(w, 1) == b1 && ByteOf(w, 2) == b2 && ByteOf(w, 3) == b3
  {
    var w := WordOf(b0, b1, b2, b3);
    var c0, c1, c2, c3 := b0 as int, b1 as int, b2 as int, b3 as int;
    Remainder(w, c1 + c2 * 0x100 + c3 * 0x1_0000, c0, 0x100);
    Remainder(c1 + c2 * 0x100 + c3 * 0x1_0000, c2 + c3 * 0x100, c1, 0x100);
    Remainder(w, c2 + c3 * 0x100, c0 + c1 * 0x100, 0x1_0000);
    Remainder(c2 + c3 * 0x100, c3, c2, 0x100);
    Remainder(w, c3, c0 + c1 * 0x100 + c2 * 0x1_0000, 0x100_0000);
  }

  lemma EncodedByte(ws: seq<Word>, i: nat, k: nat)
    requires i < |ws| && k < 4
    ensures EncodeWords(ws)[4 * i + k] == ByteOf(ws[i], k)
  {
    hide ByteOf;
    Remainder(4 * i + k, i, k, 4);
  }

  lemma DecodedWord(bs: seq<Byte>, i: nat)
    requires |bs| % 4 == 0 && i < |bs| / 4
    ensures DecodeBytes(bs)[i] == WordOf(bs[4 * i], bs[4 * i + 1], bs[4 * i + 2], bs[4 * i + 3])
  {
    hide WordOf;
  }

  lemma DecodeUndoesEncode(ws: seq<Word>)
    ensures DecodeBytes(EncodeWords(ws)) == ws
  {
    hide WordOf, ByteOf, EncodeWords, DecodeBytes;
    var bs := EncodeWords(ws);
    Remainder(|bs|, |ws|, 0, 4);
    forall i | 0 <= i < |ws|
      ensures DecodeBytes(bs)[i] == ws[i]
    {
      DecodedWord(bs, i);
      EncodedByte(ws, i, 0);
      EncodedByte(ws, i, 1);
      EncodedByte(ws, i, 2);
      EncodedByte(ws, i, 3);
      WordOfItsBytes(ws[i]);
    }
  }

  lemma EncodeUndoesDecode(bs: seq<Byte>)
    requires |bs| % 4 == 0
    ensures EncodeWords(DecodeBytes(bs)) == bs
  {
    hide WordOf, ByteOf;
    var ws := DecodeBytes(bs);
    forall j | 0 <= j < |bs|
      ensures EncodeWords(ws)[j] == bs[j]
    {
      var i := j / 4;
      BytesOfItsWord(bs[4 * i], bs[4 * i + 1], bs[4 * i + 2], bs[4 * i + 3]);
    }
  }

  lemma EncodeOneMore(ws: seq<Word>, i: nat)
    requires i < |ws|
    ensures EncodeWords(ws[..i + 1]) ==
            EncodeWords(ws[..i]) + [ByteOf(ws[i], 0), ByteOf(ws[i], 1), ByteOf(ws[i], 2), ByteOf(ws[i], 3)]
  {
    hide ByteOf, EncodeWords;
    var more, less := EncodeWords(ws[..i + 1]), EncodeWords(ws[..i]);
    forall j | 0 <= j < 4 * i
      ensures more[j] == less[j]
    {
      assert j == 4 * (j / 4) + j % 4;
      EncodedByte(ws[..i + 1], j / 4, j % 4);
      EncodedByte(ws[..i], j / 4, j % 4);
    }
    EncodedByte(ws[..i + 1], i, 0);
    EncodedByte(ws[..i + 1], i, 1);
    EncodedByte(ws[..i + 1], i, 2);
    EncodedByte(ws[..i + 1], i, 3);
    assert more[..4 * i] == less;
  }

  /** Encode writes len bytes and nothing else. */
  method Encode(output: array<Byte>, input: array<Word>, len: nat)
    requires len % 4 == 0 && len <= output.Length && len / 4 <= input.Length
    modifies output
    ensures output[..len] == EncodeWords(input[..len / 4])
    ensures output[len..] == old(output[len..])
  {
    hide EncodeWords;
    var i, j := 0, 0;
    ghost var ws := input[..len / 4];
    assert EncodeWords(ws[..0]) == [];
    while j < len
      invariant j == 4 * i && j <= len
      invariant output[..j] == EncodeWords(ws[..i]) && ws == input[..len / 4]
      invariant output[len..] == old(output[len..])
    {
      ghost var done := output[..j];
      output[j] := (input[i] % 0x100) as Byte;
      output[j + 1] := ((input[i] / 0x100) % 0x100) as Byte;
      output[j + 2] := ((input[i] / 0x1_0000) % 0x100) as Byte;
      output[j + 3] := ((input[i] / 0x100_0000) % 0x100) as Byte;
      EncodeOneMore(ws, i);
      assert output[..j + 4] == done + [output[j], output[j + 1], output[j + 2], output[j + 3]];
      i, j := i + 1, j + 4;
    }
    assert ws[..i] == ws;
  }

  /** Decodes the len bytes of input that start at offset. */
  method Decode(output: array<Word>, input: array<Byte>, offset: nat, len: nat)
    requires len % 4 == 0 && offset + len <= input.Length && len / 4 <= output.Length
    modifies output
    ensures output[..len / 4] == DecodeBytes(input[offset..offset + len])
    ensures output[len / 4..] == old(output[len / 4..])
  {
    var i, j := 0, 0;
    ghost var bytes := input[offset..offset + len];
    while j < len
      invariant j == 4 * i && j <= len
      invariant forall k :: 0 <= k < i ==> output[k] == DecodeBytes(bytes)[k]
      invariant output[len / 4..] == old(output[len / 4..])
    {
      ghost var w := WordOf(bytes[j], bytes[j + 1], bytes[j + 2], bytes[j + 3]);
      assert bytes[j] == input[offset + j] && bytes[j + 1] == input[offset + j + 1];
      assert bytes[j + 2] == input[offset + j + 2] && bytes[j + 3] == input[offset + j + 3];
      assert DecodeBytes(bytes)[i] == w;
      output[i] := input[offset + j] as int + input[offset + j + 1] as int * 0x100
                   + input[offset + j + 2] as int * 0x1_0000 + input[offset + j + 3] as int * 0x100_0000;
      i, j := i + 1, j + 4;
    }
  }
}
