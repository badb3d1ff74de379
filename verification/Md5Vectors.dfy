/** The digest by value: those of the empty message and of "abc" are the ones listed in section A.5 of RFC 1321. */
module Md5Vectors {
  import opened Md5Words
  import opened Md5Transform
  import opened Md5Context
  import opened Md5Rows
  import Md5Empty
  import Md5Abc

  /** Byte k of the block that a message of at most three bytes makes, but for the length at its end. */
  function ShortByte(m: seq<Byte>, k: nat): Byte {
    if k < |m| then m[k] else if k == |m| then 0x80 else 0
  }

  function FirstWord(m: seq<Byte>): Word {
    WordOf(ShortByte(m, 0), ShortByte(m, 1), ShortByte(m, 2), ShortByte(m, 3))
  }

  lemma ShortPadded(m: seq<Byte>)
    requires |m| <= 3
    ensures |Padded(m)| == 64
    ensures forall k :: 0 <= k < 56 ==> Padded(m)[k] == ShortByte(m, k)
    ensures Padded(m)[56] == 8 * |m| as Byte && forall k :: 57 <= k < 64 ==> Padded(m)[k] == 0
  {
    hide EncodeWords, ByteOf;
    var ws := LengthWords(|m|);
    assert PaddingLength(|m|) == 56 - |m|;
    assert ws == [8 * |m|, 0];
    forall k | 0 <= k < 8
      ensures EncodeWords(ws)[k] == if k == 0 then 8 * |m| as Byte else 0
    {
      EncodedByte(ws, k / 4, k % 4);
      SmallByte(ws[k / 4], k % 4);
    }
  }

  lemma SmallByte(w: Word, k: nat)
    requires w < 0x100 && k < 4
    ensures ByteOf(w, k) == if k == 0 then w as Byte else 0
  {
  }

  lemma LowWord(b: Byte)
    ensures WordOf(b, 0, 0, 0) == b as int
  {
  }

  lemma ShortWords(m: seq<Byte>)
    requires |m| <= 3
    ensures |Padded(m)| == 64 && DecodeBytes(Padded(m)) == ShortBlock(FirstWord(m), 8 * |m|)
  {
    hide Padded, DecodeBytes, WordOf, FirstWord;
    ShortPadded(m);
    var p := Padded(m);
    forall i: nat | i < 16
      ensures DecodeBytes(p)[i] == ShortWord(FirstWord(m), 8 * |m|, i)
    {
      DecodedWord(p, i);
      FirstWordIs(m);
      LowWord(0);
      LowWord(p[56]);
    }
  }

  lemma FirstWordIs(m: seq<Byte>)
    ensures FirstWord(m) == WordOf(ShortByte(m, 0), ShortByte(m, 1), ShortByte(m, 2), ShortByte(m, 3))
  {
  }

  /** A message of one block: its digest is what the four registers, after 64 steps and the final additions, decode. */
  lemma OneBlock(m: seq<Byte>, r: Quad, digest: seq<Byte>)
    requires |m| <= 3 && |digest| == 16 && After(16, FirstWord(m), 8 * |m|, r)
    requires DecodeBytes(digest) == [Add(INITIAL.a, r.a), Add(INITIAL.b, r.b), Add(INITIAL.c, r.c), Add(INITIAL.d, r.d)]
    ensures Digest(m) == digest
  {
    hide Padded, DecodeBytes, EncodeWords, Steps, Add;
    ShortWords(m);
    var p := Padded(m);
    assert p[..64] == p && p[64..] == [];
    assert Fold(Compress, INITIAL, p) == Compress(INITIAL, p);
    EncodeUndoesDecode(digest);
  }

  lemma Decoded(bs: seq<Byte>)
    requires |bs| == 16
    ensures DecodeBytes(bs) == [WordOf(bs[0], bs[1], bs[2], bs[3]), WordOf(bs[4], bs[5], bs[6], bs[7]),
                                WordOf(bs[8], bs[9], bs[10], bs[11]), WordOf(bs[12], bs[13], bs[14], bs[15])]
  {
    hide WordOf;
  }

  lemma FinalAdditions(r: Quad, s: Quad, carries: (nat, nat, nat, nat))
    requires INITIAL.a + r.a == s.a + carries.0 * 0x1_0000_0000 && INITIAL.b + r.b == s.b + carries.1 * 0x1_0000_0000
    requires INITIAL.c + r.c == s.c + carries.2 * 0x1_0000_0000 && INITIAL.d + r.d == s.d + carries.3 * 0x1_0000_0000
    ensures AddQuads(INITIAL, r) == s
  {
    Remainder(INITIAL.a + r.a, carries.0, s.a, 0x1_0000_0000);
    Remainder(INITIAL.b + r.b, carries.1, s.b, 0x1_0000_0000);
    Remainder(INITIAL.c + r.c, carries.2, s.c, 0x1_0000_0000);
    Remainder(INITIAL.d + r.d, carries.3, s.d, 0x1_0000_0000);
  }

  lemma DigestOfEmpty()
    ensures Digest([]) == [0xd4, 0x1d, 0x8c, 0xd9, 0x8f, 0x00, 0xb2, 0x04,
                           0xe9, 0x80, 0x09, 0x98, 0xec, 0xf8, 0x42, 0x7e]
  {
    hide After, Digest, DecodeBytes;
    var digest: seq<Byte> := [0xd4, 0x1d, 0x8c, 0xd9, 0x8f, 0x00, 0xb2, 0x04,
        0xe9, 0x80, 0x09, 0x98, 0xec, 0xf8, 0x42, 0x7e];
    Md5Empty.Rows16();
    Decoded(digest);
    FinalAdditions(Quad(0x7246fad3, 0x14e45506, 0xff4ea3eb, 0x6e10a476),
        Quad(0xd98c1dd4, 0x4b2008f, 0x980980e9, 0x7e42f8ec), (0, 1, 1, 0));
    OneBlock([], Quad(0x7246fad3, 0x14e45506, 0xff4ea3eb, 0x6e10a476), digest);
  }

  lemma DigestOfAbc()
    ensures Digest([0x61, 0x62, 0x63]) == [0x90, 0x01, 0x50, 0x98, 0x3c, 0xd2, 0x4f, 0xb0,
                           0xd6, 0x96, 0x3f, 0x7d, 0x28, 0xe1, 0x7f, 0x72]
  {
    hide After, Digest, DecodeBytes;
    var digest: seq<Byte> := [0x90, 0x01, 0x50, 0x98, 0x3c, 0xd2, 0x4f, 0xb0,
        0xd6, 0x96, 0x3f, 0x7d, 0x28, 0xe1, 0x7f, 0x72];
    Md5Abc.Rows16();
    Decoded(digest);
    FinalAdditions(Quad(0x310ade8f, 0xc08226b3, 0xe484b9d8, 0x624d8cb2),
        Quad(0x98500190, 0xb04fd23c, 0x7d3f96d6, 0x727fe128), (0, 1, 1, 0));
    OneBlock([0x61, 0x62, 0x63], Quad(0x310ade8f, 0xc08226b3, 0xe484b9d8, 0x624d8cb2), digest);
  }
}
