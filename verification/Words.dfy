// Machine words in raw memory, least significant byte first: the links of the free list are stored in the blocks.
module Words {

  type Byte = b: nat | b < 256

  const WORD: nat := 8

  const CACHE_LINE: nat := 64

  // One more than the largest number that n bytes hold.
  function Limit(n: nat): (r: nat)
    ensures r >= 1
  {
    if n == 0 then 1 else 256 * Limit(n - 1)
  }

  function ToBytes(w: nat, n: nat): (r: seq<Byte>)
    ensures |r| == n
  {
    if n == 0 then [] else [w % 256] + ToBytes(w / 256, n - 1)
  }

  function FromBytes(b: seq<Byte>): nat {
    if b == [] then 0 else b[0] + 256 * FromBytes(b[1..])
  }

  lemma {:induction false} RoundTrip(w: nat, n: nat)
    requires w < Limit(n)
    ensures FromBytes(ToBytes(w, n)) == w
    decreases n
  {
    if n == 0 {
    } else {
      RoundTrip(w / 256, n - 1);
      assert ToBytes(w, n)[1..] == ToBytes(w / 256, n - 1);
    }
  }

  // The word at an offset, or 0 where the memory ends first.
  function WordAt(memory: seq<Byte>, offset: nat): nat {
    if offset + WORD <= |memory| then FromBytes(memory[offset..offset + WORD]) else 0
  }

  // Bytes that do not fit are not written.
  function WithBytes(memory: seq<Byte>, offset: nat, data: seq<Byte>): (r: seq<Byte>)
    ensures |r| == |memory|
    ensures offset + |data| <= |memory| ==>
      && r[offset..offset + |data|] == data
      && forall i: nat | i < |memory| && (i < offset || offset + |data| <= i) :: r[i] == memory[i]
  {
    if offset + |data| <= |memory| then memory[..offset] + data + memory[offset + |data|..] else memory
  }

  function WithWord(memory: seq<Byte>, offset: nat, w: nat): (r: seq<Byte>)
    ensures |r| == |memory|
  {
    WithBytes(memory, offset, ToBytes(w, WORD))
  }

  lemma WordWritten(memory: seq<Byte>, offset: nat, w: nat)
    requires offset + WORD <= |memory| && w <= 0xFFFF_FFFF_FFFF_FFFF
    ensures WordAt(WithWord(memory, offset, w), offset) == w
  {
    assert Limit(WORD) == 0x1_0000_0000_0000_0000;
    RoundTrip(w, WORD);
  }

  // A word is what its eight bytes say.
  lemma WordUntouched(before: seq<Byte>, after: seq<Byte>, offset: nat)
    requires |before| == |after| && forall i: nat | offset <= i < offset + WORD && i < |before| :: after[i] == before[i]
    ensures WordAt(after, offset) == WordAt(before, offset)
  {
    if offset + WORD <= |before| {
      assert after[offset..offset + WORD] == before[offset..offset + WORD];
    }
  }

  lemma WordElsewhere(memory: seq<Byte>, offset: nat, w: nat, other: nat)
    requires offset + WORD <= |memory| && (offset + WORD <= other || other + WORD <= offset)
    ensures WordAt(WithWord(memory, offset, w), other) == WordAt(memory, other)
  {
    WordUntouched(memory, WithWord(memory, offset, w), other);
  }
}
