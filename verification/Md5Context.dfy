/** The streaming MD5 machine and the one-shot definition it computes (RFC 1321, sections 3.1 to 3.5). */
module Md5Context {
  import opened Md5Words
  import opened Md5Transform

  // ----- the one-shot definition

  const INITIAL := Quad(0x67452301, 0xefcdab89, 0x98badcfe, 0x10325476)

  /** The state after compressing whole blocks in order with f. */
  function Fold<State>(f: (State, Block) -> State, q: State, m: seq<Byte>): State
    requires |m| % 64 == 0
    decreases |m|
  {
    if |m| == 0 then q else Fold(f, f(q, m[..64]), m[64..])
  }

  /** Bytes appended by step 1: 0x80, then the fewest zeros that bring the length to 56 modulo 64. */
  function PaddingLength(n: nat): (k: nat)
    ensures 1 <= k <= 64 && (n + k) % 64 == 56
  {
    if n % 64 < 56 then 56 - n % 64 else 120 - n % 64
  }

  function Padding(k: nat): (p: seq<Byte>)
    requires k >= 1
    ensures |p| == k
  {
    [0x80] + seq(k - 1, _ => 0)
  }

  lemma PaddingIs(p: seq<Byte>, k: nat)
    requires k >= 1 && |p| == k && p[0] == 0x80 && forall i :: 1 <= i < k ==> p[i] == 0
    ensures p == Padding(k)
  {
  }

  /** The two count words for a message of n bytes: its length in bits modulo 2^64, low word first. */
  function LengthWords(n: nat): (ws: seq<Word>)
    ensures |ws| == 2
  {
    [8 * n % 0x1_0000_0000, 8 * n / 0x1_0000_0000 % 0x1_0000_0000]
  }

  function Padded(m: seq<Byte>): (p: seq<Byte>)
    ensures |p| % 64 == 0
  {
    var k := PaddingLength(|m|);
    Remainder(|m| + k + 8, (|m| + k) / 64 + 1, 0, 64);
    m + Padding(k) + EncodeWords(LengthWords(|m|))
  }

  function Digest(m: seq<Byte>): (d: seq<Byte>)
    ensures |d| == 16
  {
    var q := Fold(Compress, INITIAL, Padded(m));
    EncodeWords([q.a, q.b, q.c, q.d])
  }

  /** Every shorter padding misses the block boundary. */
  lemma PaddingIsShortest(n: nat, k: nat)
    requires 1 <= k < PaddingLength(n)
    ensures (n + k) % 64 != 56
  {
  }

  /** The two words are the length in bits modulo 2^64. */
  lemma LengthWordsValue(n: nat)
    ensures LengthWords(n)[0] as int + LengthWords(n)[1] as int * 0x1_0000_0000 == 8 * n % 0x1_0000_0000_0000_0000
  {
  }

  lemma {:induction false} FoldConcat<State>(f: (State, Block) -> State, q: State, m: seq<Byte>, n: seq<Byte>)
    requires |m| % 64 == 0 && |n| % 64 == 0
    ensures Fold(f, q, m + n) == Fold(f, Fold(f, q, m), n)
    decreases |m|
  {
    if |m| == 0 {
      assert m + n == n;
    } else {
      assert (m + n)[..64] == m[..64] && (m + n)[64..] == m[64..] + n;
      FoldConcat(f, f(q, m[..64]), m[64..], n);
    }
  }

  /** One more block. */
  lemma FoldOne<State>(f: (State, Block) -> State, q: State, m: seq<Byte>, block: Block)
    requires |m| % 64 == 0
    ensures Fold(f, q, m + block) == f(Fold(f, q, m), block)
  {
    FoldConcat(f, q, m, block);
    assert block[..64] == block && block[64..] == [];
  }

  /** q is the state after the whole blocks m. */
  ghost predicate Reaches(m: seq<Byte>, q: Quad) {
    |m| % 64 == 0 && q == Fold(Compress, INITIAL, m)
  }

  lemma DigestOfState(m: seq<Byte>, state: seq<Word>)
    requires |state| == 4 && Reaches(Padded(m), StateOf(state))
    ensures EncodeWords(state[..16 / 4]) == Digest(m)
  {
    hide Compress, Fold, EncodeWords, Padded;
    var q := StateOf(state);
    assert state[..16 / 4] == [q.a, q.b, q.c, q.d];
  }

  lemma ReachesOneMore(m: seq<Byte>, q: Quad, block: Block)
    requires Reaches(m, q)
    ensures Reaches(m + block, Compress(q, block))
  {
    hide Compress;
    FoldOne(Compress, INITIAL, m, block);
  }

  // ----- arithmetic of the two count words

  lemma AddsModulo(x: nat, y: nat)
    ensures (x % 0x1_0000_0000 + y) % 0x1_0000_0000 == (x + y) % 0x1_0000_0000
  {
    var d := 0x1_0000_0000;
    var rest := x % d + y;
    assert x + y == d * (x / d) + rest == d * (x / d + rest / d) + rest % d;
    Remainder(x + y, x / d + rest / d, rest % d, 0x1_0000_0000);
  }

  /** The low word overflows exactly when the sum is below the addend. */
  lemma CountAdds(n: nat, len: nat)
    requires len < 0x1_0000_0000
    ensures
      var low, high := LengthWords(n)[0], LengthWords(n)[1];
      var addend := 8 * len % 0x1_0000_0000;
      var sum := Add(low, addend);
      var carried := if sum < addend then Add(high, 1) else high;
      [sum, Add(carried, len / 0x2000_0000)] == LengthWords(n + len)
  {
    var low, high := 8 * n % 0x1_0000_0000, 8 * n / 0x1_0000_0000;
    var addend, rest := 8 * len % 0x1_0000_0000, len / 0x2000_0000;
    var carry := if low + addend < 0x1_0000_0000 then 0 else 1;
    assert 8 * len == 0x1_0000_0000 * rest + addend;
    Remainder(low + addend, carry, low + addend - 0x1_0000_0000 * carry, 0x1_0000_0000);
    Remainder(8 * (n + len), high + rest + carry, low + addend - 0x1_0000_0000 * carry, 0x1_0000_0000);
    AddsModulo(high, carry);
    AddsModulo(high + carry, rest);
    AddsModulo(high, rest);
  }

  lemma CountIndex(n: nat)
    ensures LengthWords(n)[0] / 8 % 64 == n % 64
  {
    var high, low := 8 * n / 0x1_0000_0000, 8 * n % 0x1_0000_0000;
    assert 8 * n == 0x1_0000_0000 * high + low;
    var bytes := n - 0x2000_0000 * high;
    assert low == 8 * bytes;
    Remainder(n, 0x80_0000 * high + bytes / 64, bytes % 64, 64);
  }

  /** The whole blocks of m, and the bytes after them. */
  function Whole(m: seq<Byte>): (w: seq<Byte>)
    ensures |w| % 64 == 0
  {
    m[..|m| - |m| % 64]
  }

  function Rest(m: seq<Byte>): (r: seq<Byte>)
    ensures |r| == |m| % 64
  {
    m[|m| - |m| % 64..]
  }

  lemma WholeThenRest(m: seq<Byte>)
    ensures Whole(m) + Rest(m) == m
  {
  }

  lemma WholeAndRest(m: seq<Byte>, whole: seq<Byte>, rest: seq<Byte>)
    requires m == whole + rest && |whole| % 64 == 0 && |rest| < 64
    ensures Whole(m) == whole && Rest(m) == rest
  {
    assert |m| % 64 == |rest|;
  }

  lemma Remaining(was: seq<Byte>, part: seq<Byte>, i: nat, whole: seq<Byte>, kept: seq<Byte>)
    requires i <= |part| && whole + kept == was + part[..i]
    requires |whole| % 64 == 0 && |kept| + |part| - i < 64
    ensures Whole(was + part) == whole && Rest(was + part) == kept + part[i..]
  {
    hide Whole, Rest;
    assert was + part == (was + part[..i]) + part[i..];
    assert was + part == whole + (kept + part[i..]);
    WholeAndRest(was + part, whole, kept + part[i..]);
  }

  lemma Aligned(n: nat, i: nat)
    requires (n % 64 + i) % 64 == 0
    ensures (n + i) % 64 == 0
  {
    Remainder(n + i, n / 64 + (n % 64 + i) / 64, 0, 64);
  }

  lemma GuardStaysInRange(from: nat, blocks: nat, inputLen: nat)
    requires from <= 64 && from + 64 * blocks <= inputLen && 64 - from + inputLen < 0x1_0000_0000
    ensures from + 64 * blocks + 63 < 0x1_0000_0000
  {
    assert 64 * blocks < 64 * 0x3FF_FFFF;
  }

  /** The test i + 63 < inputLen wraps at 32 bits.  It is still true after the last whole block, sending
      the loop past the end of the input, exactly when the pending bytes and the input together reach 2^32. */
  lemma GuardOverruns(index: nat, inputLen: nat, i: nat)
    requires index < 64 && inputLen < 0x1_0000_0000
    requires 64 - index <= i <= inputLen < i + 64 && (index + i) % 64 == 0
    ensures (i + 63) % 0x1_0000_0000 < inputLen <==> index + inputLen >= 0x1_0000_0000
  {
  }

  /** Past that bound the test holds at every value that the loop variable can take, so the loop never ends. */
  lemma GuardNeverEnds(index: nat, inputLen: nat, i: nat)
    requires index < 64 && inputLen < 0x1_0000_0000 && index + inputLen >= 0x1_0000_0000
    requires i < 0x1_0000_0000 && (index + i) % 64 == 0
    ensures (i + 63) % 0x1_0000_0000 < inputLen
  {
  }

  /** The loop variable of MD5Update, an unsigned int of 32 bits, after k rounds, and its test. */
  function Counter(index: nat, k: nat): (i: nat)
    requires index < 64
    ensures i < 0x1_0000_0000 && (index + i) % 64 == 0
  {
    var i := 64 - index + 64 * k;
    assert i == 0x1_0000_0000 * (i / 0x1_0000_0000) + i % 0x1_0000_0000;
    i % 0x1_0000_0000
  }

  predicate GoesOn(index: nat, inputLen: nat, k: nat)
    requires index < 64
  {
    (Counter(index, k) + 63) % 0x1_0000_0000 < inputLen
  }

  /** The loop of MD5Update comes to an end if and only if the pending bytes and the input together stay below 2^32. */
  lemma LoopStops(index: nat, inputLen: nat)
    requires index < 64 && 64 - index <= inputLen < 0x1_0000_0000
    ensures (exists k :: !GoesOn(index, inputLen, k)) <==> index + inputLen < 0x1_0000_0000
  {
    if index + inputLen < 0x1_0000_0000 {
      var k := (inputLen - (64 - index)) / 64;
      var i := 64 - index + 64 * k;
      assert i <= inputLen < i + 64;
      Remainder(i, 0, i, 0x1_0000_0000);
      assert !GoesOn(index, inputLen, k);
    } else {
      forall k ensures GoesOn(index, inputLen, k) { GuardNeverEnds(index, inputLen, Counter(index, k)); }
    }
  }

  /** One pending byte and an input of 2^32 - 1 bytes: the loop goes on for ever. */
  lemma LoopNeverStops(k: nat)
    ensures GoesOn(1, 0xFFFF_FFFF, k)
  {
    GuardNeverEnds(1, 0xFFFF_FFFF, Counter(1, k));
  }

  // ----- the machine

  class Context {
    const state: array<Word>
    const count: array<Word>
    const buffer: array<Byte>
    /** Everything the context has been fed so far. */
    ghost var fed: seq<Byte>

    ghost predicate Shape() {
      state.Length == 4 && count.Length == 2 && buffer.Length == 64 && state != count
    }

    /** state folds the whole blocks, buffer holds what is left, count is the length in bits. */
    ghost predicate Valid()
      reads this, state, count, buffer
    {
      Shape() &&
      Reaches(Whole(fed), StateOf(state[..])) &&
      buffer[..|Rest(fed)|] == Rest(fed) &&
      count[..] == LengthWords(|fed|)
    }

    constructor ()
      ensures fresh(state) && fresh(count) && fresh(buffer) && Valid() && fed == []
    {
      state := new Word[4];
      count := new Word[2];
      buffer := new Byte[64];
      fed := [];
      new;
      Init();
    }

    /** MD5Init */
    method Init()
      requires Shape()
      modifies this, state, count
      ensures Valid() && fed == []
    {
      count[0], count[1] := 0, 0;
      state[0] := 0x67452301;
      state[1] := 0xefcdab89;
      state[2] := 0x98badcfe;
      state[3] := 0x10325476;
      fed := [];
    }

    /** The count part of MD5Update. */
    method AddCount(inputLen: nat, ghost n: nat)
      requires Shape() && inputLen < 0x1_0000_0000 && count[..] == LengthWords(n)
      modifies count
      ensures count[..] == LengthWords(n + inputLen)
    {
      hide LengthWords, Add;
      CountAdds(n, inputLen);
      var addend := inputLen * 8 % 0x1_0000_0000;
      count[0] := Add(count[0], addend);
      if count[0] < addend {
        count[1] := Add(count[1], 1);
      }
      count[1] := Add(count[1], inputLen / 0x2000_0000);
    }

    /** MD5Update with the first inputLen bytes of input.  The last precondition is the exact condition
        under which the loop of TransformBlocks stops in time, see GuardOverruns. */
    method Update(input: array<Byte>, inputLen: nat)
      requires Valid() && input != buffer
      requires inputLen <= input.Length && inputLen < 0x1_0000_0000
      requires |fed| % 64 + inputLen < 0x1_0000_0000
      modifies this, state, count, buffer
      ensures Valid() && fed == old(fed) + input[..inputLen]
    {
      hide Compress, LengthWords, Reaches, Whole, Rest, StateOf, Fold;
      ghost var was, part := fed, input[..inputLen];
      CountIndex(|was|);
      WholeThenRest(was);
      var index: nat := count[0] / 8 % 64;
      AddCount(inputLen, |was|);

      var i: nat := 0;
      var partLen := 64 - index;
      ghost var whole, kept := Whole(was), Rest(was);
      if inputLen >= partLen {
        i := CompleteBlocks(input, index, inputLen, whole);
        assert whole + kept + input[..i] == was + part[..i];
        Aligned(|was|, i);
        whole, kept := was + part[..i], [];
        index := 0;
      }
      Copy(buffer, index, input, i, inputLen - i);
      fed := was + part;
      Remaining(was, part, i, whole, kept);
      assert buffer[..index + inputLen - i] == kept + part[i..];
    }

    /** The part of MD5Update that runs when the input completes a block: the buffer first, then the
        whole blocks that the input still holds. */
    method CompleteBlocks(input: array<Byte>, index: nat, inputLen: nat, ghost whole: seq<Byte>) returns (i: nat)
      requires Shape() && input != buffer
      requires index < 64 && 64 - index <= inputLen <= input.Length && index + inputLen < 0x1_0000_0000
      requires Reaches(whole, StateOf(state[..])) && |whole| % 64 == 0
      modifies state, buffer
      ensures 64 - index <= i <= inputLen < i + 64 && (index + i) % 64 == 0
      ensures Reaches(whole + old(buffer[..index]) + input[..i], StateOf(state[..]))
    {
      hide Compress, Reaches, StateOf, Fold;
      var partLen := 64 - index;
      ghost var kept := buffer[..index];
      Copy(buffer, index, input, 0, partLen);
      assert buffer[..] == buffer[0..64] == kept + input[..partLen];
      ReachesOneMore(whole, StateOf(state[..]), buffer[..]);
      Transform(state, buffer, 0);
      i := TransformBlocks(input, partLen, inputLen, whole + buffer[..]);
      assert whole + buffer[..] + input[partLen..i] == whole + kept + input[..i];
    }

    /** The loop of MD5Update over whole blocks; its test is computed at 32 bits. */
    method TransformBlocks(input: array<Byte>, from: nat, inputLen: nat, ghost before: seq<Byte>) returns (i: nat)
      requires Shape() && Reaches(before, StateOf(state[..])) && |before| % 64 == 0
      requires from <= 64 && from <= inputLen <= input.Length && 64 - from + inputLen < 0x1_0000_0000
      modifies state
      ensures from <= i <= inputLen < i + 64
      ensures (i - from) % 64 == 0 && Reaches(before + input[from..i], StateOf(state[..]))
    {
      hide Compress, Reaches, StateOf, Fold;
      i := from;
      ghost var blocks := 0;
      assert before + input[from..i] == before;
      while (i + 63) % 0x1_0000_0000 < inputLen
        invariant i == from + 64 * blocks <= inputLen
        invariant Reaches(before + input[from..i], StateOf(state[..]))
        decreases inputLen - i
      {
        GuardStaysInRange(from, blocks, inputLen);
        ghost var done := before + input[from..i];
        assert before + input[from..i + 64] == done + input[i..i + 64];
        ReachesOneMore(done, StateOf(state[..]), input[i..i + 64]);
        Transform(state, input, i);
        i, blocks := i + 64, blocks + 1;
      }
    }

    /** The padding part of MD5Final. */
    method Pad()
      requires Valid()
      modifies this, state, count, buffer
      ensures Valid() && fed == Padded(old(fed))
    {
      hide Compress, LengthWords, EncodeWords, Reaches, Whole, Rest, Padding;
      ghost var m := fed;
      var bits := new Byte[8];
      Encode(bits, count, 8);
      assert count[..8 / 4] == LengthWords(|m|);
      CountIndex(|m|);
      var index := count[0] / 8 % 64;
      var padLen := if index < 56 then 56 - index else 120 - index;
      var padding := new Byte[64](k => if k == 0 then 0x80 else 0);
      PaddingIs(padding[..padLen], padLen);
      Update(padding, padLen);
      Update(bits, 8);
      assert bits[..8] == EncodeWords(LengthWords(|m|));
    }

    /** MD5Final: writes the digest of everything fed and zeroes the context. */
    method Final(digest: array<Byte>)
      requires Valid() && digest.Length == 16 && digest != buffer
      modifies this, state, count, buffer, digest
      ensures digest[..] == Digest(old(fed))
      ensures (forall k :: 0 <= k < 4 ==> state[k] == 0) && count[0] == 0 && count[1] == 0
      ensures forall k :: 0 <= k < 64 ==> buffer[k] == 0
    {
      hide Compress, LengthWords, EncodeWords, Reaches, Whole, Rest, Digest, Padded;
      ghost var m := fed;
      Pad();
      WholeThenRest(fed);
      assert Whole(fed) == fed;
      Encode(digest, state, 16);
      DigestOfState(m, state[..]);

      state[0], state[1], state[2], state[3] := 0, 0, 0, 0;
      count[0], count[1] := 0, 0;
      Clear(buffer);
    }
  }

  /** The bytes of the first k chunks, in order. */
  function Joined(chunks: seq<seq<Byte>>, k: nat): (bytes: seq<Byte>)
    requires k <= |chunks|
    ensures k == 0 ==> bytes == []
  {
    if k == 0 then [] else Joined(chunks, k - 1) + chunks[k - 1]
  }

  lemma JoinedGrows(chunks: seq<seq<Byte>>, k: nat)
    requires k < |chunks|
    ensures Joined(chunks, k + 1) == Joined(chunks, k) + chunks[k]
    ensures EveryPieceFits(chunks) ==> |Joined(chunks, k)| % 64 + |chunks[k]| < 0x1_0000_0000
  {
  }

  ghost predicate EveryPieceFits(chunks: seq<seq<Byte>>) {
    forall k :: 0 <= k < |chunks| ==> |Joined(chunks, k)| % 64 + |chunks[k]| < 0x1_0000_0000
  }

  /** MDFile's loop, for any cutting of a file into pieces: the digest depends only on the bytes. */
  method DigestOfChunks(chunks: seq<seq<Byte>>, digest: array<Byte>)
    requires digest.Length == 16
    requires EveryPieceFits(chunks)
    modifies digest
    ensures digest[..] == Digest(Joined(chunks, |chunks|))
  {
    hide Digest, Compress, LengthWords, Reaches, Whole, Rest, StateOf, Fold, Joined, EveryPieceFits;
    var context := new Context();
    for k := 0 to |chunks|
      invariant context.Valid() && context.fed == Joined(chunks, k)
      invariant fresh(context.state) && fresh(context.count) && fresh(context.buffer)
    {
      var chunk := chunks[k];
      var buffer := new Byte[|chunk|](i requires 0 <= i < |chunk| => chunk[i]);
      assert buffer[..|chunk|] == chunk;
      JoinedGrows(chunks, k);
      context.Update(buffer, |chunk|);
    }
    context.Final(digest);
  }

  /** MD5_memcpy */
  method Copy(output: array<Byte>, to: nat, input: array<Byte>, from: nat, len: nat)
    requires input != output
    requires to + len <= output.Length && from + len <= input.Length
    modifies output
    ensures output[..] == old(output[..to]) + input[from..from + len] + old(output[to + len..])
  {
    for i := 0 to len
      invariant output[..] == old(output[..to]) + input[from..from + i] + old(output[to + i..])
    {
      output[to + i] := input[from + i];
    }
  }

  /** MD5_memset with value 0 */
  method Clear(output: array<Byte>)
    modifies output
    ensures forall k :: 0 <= k < output.Length ==> output[k] == 0
  {
    for i := 0 to output.Length
      invariant forall k :: 0 <= k < i ==> output[k] == 0
    {
      output[i] := 0;
    }
  }
}
