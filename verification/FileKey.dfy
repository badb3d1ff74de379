/** get_md5: the key of a file is the digest of its bytes in hexadecimal, and the file cache accepts every such key. */
module FileKey {
  import opened Md5Words
  import opened Md5Context
  import Md5Vectors
  import FileCache

  /** A digit that %02x prints. */
  function HexDigit(n: nat): (c: char)
    requires n < 16
    ensures c != '\0'
  {
    if n < 10 then '0' + n as char else 'a' + (n - 10) as char
  }

  function DigitValue(c: char): int {
    if '0' <= c <= '9' then c as int - '0' as int else c as int - 'a' as int + 10
  }

  function Hex(bs: seq<Byte>): (h: string)
    ensures |h| == 2 * |bs|
  {
    if bs == [] then "" else [HexDigit(bs[0] as int / 16), HexDigit(bs[0] as int % 16)] + Hex(bs[1..])
  }

  lemma DigitRead(n: nat)
    requires n < 16
    ensures DigitValue(HexDigit(n)) == n
  {
  }

  /** Each byte can be read back from its two digits. */
  lemma {:induction false} HexAt(bs: seq<Byte>, i: nat)
    requires i < |bs|
    ensures Hex(bs)[2 * i] == HexDigit(bs[i] as int / 16) && Hex(bs)[2 * i + 1] == HexDigit(bs[i] as int % 16)
    ensures 16 * DigitValue(Hex(bs)[2 * i]) + DigitValue(Hex(bs)[2 * i + 1]) == bs[i] as int
  {
    hide HexDigit, DigitValue;
    DigitRead(bs[i] as int / 16);
    DigitRead(bs[i] as int % 16);
    if i > 0 { HexAt(bs[1..], i - 1); }
  }

  /** Different digests have different keys. */
  lemma HexInjective(bs: seq<Byte>, cs: seq<Byte>)
    requires Hex(bs) == Hex(cs)
    ensures bs == cs
  {
    hide Hex, DigitValue, HexDigit;
    forall i | 0 <= i < |bs|
      ensures bs[i] == cs[i]
    {
      HexAt(bs, i);
      HexAt(cs, i);
    }
  }

  lemma {:induction false} HexHasNoNul(bs: seq<Byte>)
    ensures '\0' !in Hex(bs)
  {
    hide HexDigit;
    if bs != [] { HexHasNoNul(bs[1..]); }
  }

  /** The key of a file is accepted by the cache, whatever its bytes, if its name has at most 256 characters. */
  lemma KeysAreAccepted(bytes: seq<Byte>, name: string, size: nat, seeder: FileCache.Seeder)
    ensures '\0' !in Hex(Digest(bytes))
    ensures FileCache.Acceptable(FileCache.Call(name, Hex(Digest(bytes)), size, seeder)) <==> |name| <= 256
  {
    hide Digest;
    HexHasNoNul(Digest(bytes));
  }

  lemma {:induction false} HexJoined(bs: seq<Byte>, cs: seq<Byte>)
    ensures Hex(bs + cs) == Hex(bs) + Hex(cs)
  {
    hide HexDigit;
    if bs == [] {
      assert bs + cs == cs;
    } else {
      assert (bs + cs)[1..] == bs[1..] + cs;
      HexJoined(bs[1..], cs);
    }
  }

  lemma HexOfTwo(b: Byte, c: Byte)
    ensures Hex([b, c]) == [HexDigit(b as int / 16), HexDigit(b as int % 16), HexDigit(c as int / 16),
                            HexDigit(c as int % 16)]
  {
    hide HexDigit;
    assert Hex([c]) == [HexDigit(c as int / 16), HexDigit(c as int % 16)];
    assert [b, c][1..] == [c];
  }

  lemma HexOfFour(a: Byte, b: Byte, c: Byte, d: Byte)
    ensures Hex([a, b, c, d]) == Hex([a, b]) + Hex([c, d])
  {
    assert [a, b, c, d] == [a, b] + [c, d];
    HexJoined([a, b], [c, d]);
  }

  lemma KeyOfEmptyFile()
    ensures Hex(Digest([])) == "d41d8cd98f00b204e9800998ecf8427e"
  {
    hide Digest, Hex;
    Md5Vectors.DigestOfEmpty();
    var a: seq<Byte> := [0xd4, 0x1d, 0x8c, 0xd9];
    var b: seq<Byte> := [0x8f, 0x00, 0xb2, 0x04];
    var c: seq<Byte> := [0xe9, 0x80, 0x09, 0x98];
    var d: seq<Byte> := [0xec, 0xf8, 0x42, 0x7e];
    assert Digest([]) == ((a + b) + c) + d;
    HexJoined((a + b) + c, d);
    HexJoined(a + b, c);
    HexJoined(a, b);
    FirstHalf();
    SecondHalf();
  }

  lemma FirstHalf()
    ensures Hex([0xd4, 0x1d, 0x8c, 0xd9]) == "d41d8cd9" && Hex([0x8f, 0x00, 0xb2, 0x04]) == "8f00b204"
  {
    hide Hex;
    HexOfFour(0xd4, 0x1d, 0x8c, 0xd9);
    HexOfFour(0x8f, 0x00, 0xb2, 0x04);
    HexOfTwo(0xd4, 0x1d);
    HexOfTwo(0x8c, 0xd9);
    HexOfTwo(0x8f, 0x00);
    HexOfTwo(0xb2, 0x04);
  }

  lemma SecondHalf()
    ensures Hex([0xe9, 0x80, 0x09, 0x98]) == "e9800998" && Hex([0xec, 0xf8, 0x42, 0x7e]) == "ecf8427e"
  {
    hide Hex;
    HexOfFour(0xe9, 0x80, 0x09, 0x98);
    HexOfFour(0xec, 0xf8, 0x42, 0x7e);
    HexOfTwo(0xe9, 0x80);
    HexOfTwo(0x09, 0x98);
    HexOfTwo(0xec, 0xf8);
    HexOfTwo(0x42, 0x7e);
  }

  /** get_md5 for a file read in the given pieces: each sprintf writes two digits and a NUL. */
  method GetMd5(chunks: seq<seq<Byte>>) returns (hash: array<char>)
    requires EveryPieceFits(chunks)
    ensures fresh(hash) && hash.Length == 33
    ensures hash[..32] == Hex(Digest(Joined(chunks, |chunks|))) && hash[32] == '\0'
  {
    hide Digest, Hex, HexDigit, Joined, EveryPieceFits;
    hash := new char[33];
    var digest := new Byte[16];
    DigestOfChunks(chunks, digest);
    hash[32] := '\0';
    for i := 0 to 16
      invariant hash[..2 * i] == Hex(digest[..])[..2 * i] && hash[32] == '\0'
      invariant digest[..] == Digest(Joined(chunks, |chunks|))
    {
      HexAt(digest[..], i);
      hash[2 * i], hash[2 * i + 1] := HexDigit(digest[i] as int / 16), HexDigit(digest[i] as int % 16);
      hash[2 * i + 2] := '\0';
    }
  }
}
