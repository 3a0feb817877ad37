/** Counter-mode pseudo-random generator for pairwise masks (sentrylink/crypto/prg.py). */
module Prg {
  import opened Foundations

  const MASK_BOUND: int := 0x100_0000_0000
  const SPAN: int := 2 * MASK_BOUND + 1

  /** HMAC-SHA256 of a counter under a seed. */
  type Mac = (Bytes, nat) -> Bytes

  ghost predicate IsMac(mac: Mac) {
    forall seed, counter :: |mac(seed, counter)| == 32
  }

  /** Byte `k` of the key stream: byte `k % 32` of the block with counter `k / 32`. */
  function StreamByte(mac: Mac, seed: Bytes, k: nat): Byte {
    var block := mac(seed, k / 32);
    if k % 32 < |block| then block[k % 32] else 0
  }

  method ExpandSeed(mac: Mac, seed: Bytes, nBytes: int) returns (r: Result<Bytes, Error>)
    requires IsMac(mac)
    ensures nBytes < 0 ==> r == Err(ValueError)
    ensures nBytes >= 0 ==>
              && r.Ok? && |r.value| == nBytes
              && forall k :: 0 <= k < nBytes ==> r.value[k] == mac(seed, k / 32)[k % 32]
  {
    if nBytes < 0 {
      return Err(ValueError);
    }
    var out: Bytes := [];
    var counter := 0;
    while |out| < nBytes
      invariant counter >= 0 && |out| == 32 * counter
      invariant forall k :: 0 <= k < |out| ==> out[k] == mac(seed, k / 32)[k % 32]
      decreases nBytes - |out|
    {
      var block := mac(seed, counter);
      assert forall k :: 32 * counter <= k < 32 * counter + 32 ==> k / 32 == counter && k % 32 == k - 32 * counter;
      out := out + block;
      counter := counter + 1;
    }
    return Ok(out[..nBytes]);
  }

  function BigEndian(b: Bytes): nat {
    if b == [] then 0 else 256 * BigEndian(b[..|b| - 1]) + b[|b| - 1]
  }

  function StreamWindow(mac: Mac, seed: Bytes, start: nat, n: nat): (w: Bytes)
    ensures |w| == n && forall i :: 0 <= i < n ==> w[i] == StreamByte(mac, seed, start + i)
  {
    if n == 0 then [] else StreamWindow(mac, seed, start, n - 1) + [StreamByte(mac, seed, start + n - 1)]
  }

  /** Mask coordinate `c`: the c-th big-endian 64-bit word of the stream, reduced and centred. */
  function MaskWord(mac: Mac, seed: Bytes, c: nat): int {
    BigEndian(StreamWindow(mac, seed, 8 * c, 8)) % SPAN - MASK_BOUND
  }

  /** Eight bytes as an unsigned 64-bit number, most significant byte first. */
  ghost function WordOf(b: Bytes): int
    requires |b| == 8
  {
    b[0] as int * 0x100_0000_0000_0000 + b[1] as int * 0x1_0000_0000_0000 + b[2] as int * 0x100_0000_0000
    + b[3] as int * 0x1_0000_0000 + b[4] as int * 0x100_0000 + b[5] as int * 0x1_0000 + b[6] as int * 0x100
    + b[7] as int
  }

  /** `w` is that number reduced modulo SPAN and moved to [-MASK_BOUND, MASK_BOUND]. */
  ghost predicate IsCentredWord(b: Bytes, w: int)
    requires |b| == 8
  {
    -MASK_BOUND <= w <= MASK_BOUND && (WordOf(b) - (w + MASK_BOUND)) % SPAN == 0
  }

  /** The c-th eight bytes of the stream lie in one block: the one with counter c / 4, from offset 8·(c mod 4) on. */
  function BlockWord(mac: Mac, seed: Bytes, c: nat): (b: Bytes)
    requires IsMac(mac)
    ensures |b| == 8
  {
    mac(seed, c / 4)[8 * (c % 4)..8 * (c % 4) + 8]
  }

  lemma WindowIsBlockWord(mac: Mac, seed: Bytes, c: nat)
    requires IsMac(mac)
    ensures StreamWindow(mac, seed, 8 * c, 8) == BlockWord(mac, seed, c)
  {
    forall i | 0 <= i < 8 ensures StreamByte(mac, seed, 8 * c + i) == BlockWord(mac, seed, c)[i] {
      assert (8 * c + i) / 32 == c / 4 && (8 * c + i) % 32 == 8 * (c % 4) + i;
    }
  }

  lemma BigEndianOfLast(b: Bytes)
    requires b != []
    ensures BigEndian(b) == 256 * BigEndian(b[..|b| - 1]) + b[|b| - 1]
  {
  }

  lemma BigEndianOfEight(b: Bytes)
    requires |b| == 8
    ensures BigEndian(b) == WordOf(b)
  {
    assert b[..7][..6] == b[..6] && b[..6][..5] == b[..5] && b[..5][..4] == b[..4] && b[..4][..3] == b[..3];
    assert b[..3][..2] == b[..2] && b[..2][..1] == b[..1] && b[..1][..0] == [];
    BigEndianOfLast(b[..1]);
    BigEndianOfLast(b[..2]);
    BigEndianOfLast(b[..3]);
    BigEndianOfLast(b[..4]);
    BigEndianOfLast(b[..5]);
    BigEndianOfLast(b[..6]);
    BigEndianOfLast(b[..7]);
    BigEndianOfLast(b);
  }

  lemma ReducedAndCentred(v: int, w: int)
    requires w == v % SPAN - MASK_BOUND
    ensures -MASK_BOUND <= w <= MASK_BOUND && (v - (w + MASK_BOUND)) % SPAN == 0
  {
  }

  /** What a mask coordinate is worth, byte by byte. */
  lemma MaskWordValue(mac: Mac, seed: Bytes, c: nat)
    requires IsMac(mac)
    ensures IsCentredWord(mac(seed, c / 4)[8 * (c % 4)..8 * (c % 4) + 8], MaskWord(mac, seed, c))
  {
    var b := BlockWord(mac, seed, c);
    WindowIsBlockWord(mac, seed, c);
    BigEndianOfEight(b);
    ReducedAndCentred(WordOf(b), MaskWord(mac, seed, c));
  }

  method IntMasks(mac: Mac, seed: Bytes, length: int) returns (masks: seq<int>)
    requires IsMac(mac)
    ensures |masks| == if length <= 0 then 0 else length
    ensures forall c :: 0 <= c < |masks| ==> masks[c] == MaskWord(mac, seed, c)
    ensures forall c :: 0 <= c < |masks| ==> IsCentredWord(mac(seed, c / 4)[8 * (c % 4)..8 * (c % 4) + 8], masks[c])
  {
    if length <= 0 {
      return [];
    }
    var expanded := ExpandSeed(mac, seed, length * 8);
    var raw := expanded.value;
    masks := seq(length, c requires 0 <= c < length => BigEndian(raw[8 * c..8 * c + 8]) % SPAN - MASK_BOUND);
    forall c | 0 <= c < length
      ensures masks[c] == MaskWord(mac, seed, c)
      ensures IsCentredWord(mac(seed, c / 4)[8 * (c % 4)..8 * (c % 4) + 8], masks[c])
    {
      assert raw[8 * c..8 * c + 8] == StreamWindow(mac, seed, 8 * c, 8);
      MaskWordValue(mac, seed, c);
    }
  }

  lemma MaskInRange(mac: Mac, seed: Bytes, c: nat)
    ensures -MASK_BOUND <= MaskWord(mac, seed, c) <= MASK_BOUND
  {
  }

  /** The k bytes of a number below 256^k, most significant first. */
  function BytesOf(n: nat, k: nat): (b: Bytes)
    ensures |b| == k
  {
    if k == 0 then [] else BytesOf(n / 256, k - 1) + [n % 256]
  }

  function Power256(k: nat): nat {
    if k == 0 then 1 else 256 * Power256(k - 1)
  }

  lemma {:induction false} BytesRoundTrip(n: nat, k: nat)
    requires n < Power256(k)
    ensures BigEndian(BytesOf(n, k)) == n
  {
    if k > 0 {
      BytesRoundTrip(n / 256, k - 1);
      assert BytesOf(n, k)[..k - 1] == BytesOf(n / 256, k - 1);
    }
  }

  /** A MAC that answers every request with four copies of the same eight bytes. */
  function ConstantMac(word: Bytes): Mac {
    (_, _) => word + word + word + word
  }

  lemma SpanFitsEightBytes()
    ensures SPAN <= Power256(8)
  {
    assert Power256(4) == 0x1_0000_0000;
    assert Power256(8) == 256 * (256 * (256 * (256 * Power256(4))));
  }

  lemma ConstantBlocks(mac: Mac, word: Bytes, seed: Bytes, c: nat)
    requires |word| == 8 && mac == ConstantMac(word)
    ensures IsMac(mac) && BlockWord(mac, seed, c) == word
  {
    assert |mac(seed, c / 4)| == 32;
    var r := c % 4;
    assert r == 0 || r == 1 || r == 2 || r == 3;
  }

  lemma ConstantMasks(mac: Mac, seed: Bytes, c: nat, n: nat)
    requires n < SPAN && mac == ConstantMac(BytesOf(n, 8))
    ensures IsMac(mac) && MaskWord(mac, seed, c) == n % SPAN - MASK_BOUND
  {
    SpanFitsEightBytes();
    BytesRoundTrip(n, 8);
    ConstantBlocks(mac, BytesOf(n, 8), seed, c);
    WindowIsBlockWord(mac, seed, c);
  }

  /** No mask value is excluded: each is the mask of some stream, at every coordinate. */
  lemma EveryMaskOccurs(seed: Bytes, c: nat, w: int)
    requires -MASK_BOUND <= w <= MASK_BOUND
    ensures exists mac: Mac {:trigger MaskWord(mac, seed, c)} :: IsMac(mac) && MaskWord(mac, seed, c) == w
  {
    ConstantMasks(ConstantMac(BytesOf(w + MASK_BOUND, 8)), seed, c, w + MASK_BOUND);
  }
}
