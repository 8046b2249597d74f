/** CRC-64/XZ: section 6 of the .xz file format, as a fold over the bytes. */
module Crc64 {
  import opened ByteStrings

  /** The reflected polynomial. */
  const POLY: bv64 := 0xC96C_5795_D787_0F42

  /** The initial value, also xored into the result. */
  const ONES: bv64 := 0xFFFF_FFFF_FFFF_FFFF

  function ShiftBit(c: bv64): bv64 {
    if c & 1 == 1 then (c >> 1) ^ POLY else c >> 1
  }

  function ShiftByte(c: bv64): bv64 {
    ShiftBit(ShiftBit(ShiftBit(ShiftBit(ShiftBit(ShiftBit(ShiftBit(ShiftBit(c))))))))
  }

  function AddByte(digest: bv64, b: bv8): bv64 {
    ShiftByte(digest ^ (b as bv64))
  }

  /** Feed more bytes to a digest. */
  function Update(digest: bv64, data: Bytes): bv64 {
    if data == [] then digest
    else
      var n := |data| - 1;
      AddByte(Update(digest, data[..n]), data[n])
  }

  function Finalize(digest: bv64): bv64 {
    digest ^ ONES
  }

  function Checksum(data: Bytes): bv64 {
    Finalize(Update(ONES, data))
  }

  /** Hashing in parts equals hashing at once. */
  lemma {:induction false} UpdateInParts(digest: bv64, first: Bytes, second: Bytes)
    ensures Update(digest, first + second) == Update(Update(digest, first), second)
    decreases |second|
  {
    hide AddByte;
    if second == [] {
      assert first + second == first;
    } else {
      var n := |second| - 1;
      assert (first + second)[..|first| + n] == first + second[..n];
      UpdateInParts(digest, first, second[..n]);
    }
  }

  lemma UpdateOne(data: Bytes, n: nat)
    requires n < |data|
    ensures Update(ONES, data[..n + 1]) == ShiftByte(Update(ONES, data[..n]) ^ (data[n] as bv64))
  {
    hide ShiftByte;
    assert data[..n + 1][..n] == data[..n];
  }

  lemma UpdateNone(data: Bytes)
    ensures Update(ONES, data[..0]) == ONES
  {
  }

  lemma DigitShifts()
    ensures ShiftByte(ONES ^ 0x31) == 0xD5D0_F17A_6B6A_3512
    ensures ShiftByte(0xD5D0_F17A_6B6A_3512 ^ 0x32) == 0xFBE2_9281_D80D_A6A7
    ensures ShiftByte(0xFBE2_9281_D80D_A6A7 ^ 0x33) == 0xCFDC_D7BB_F8E3_3A9E
    ensures ShiftByte(0xCFDC_D7BB_F8E3_3A9E ^ 0x34) == 0x31B1_786C_9947_3CD7
    ensures ShiftByte(0x31B1_786C_9947_3CD7 ^ 0x35) == 0xA258_B900_5AFB_A316
    ensures ShiftByte(0xA258_B900_5AFB_A316 ^ 0x36) == 0xFB95_1AC9_A23C_3731
    ensures ShiftByte(0xFB95_1AC9_A23C_3731 ^ 0x37) == 0x8FAF_60C9_9E6D_C25F
    ensures ShiftByte(0x8FAF_60C9_9E6D_C25F ^ 0x38) == 0xA374_7FB7_D453_87F6
    ensures ShiftByte(0xA374_7FB7_D453_87F6 ^ 0x39) == 0x66A2_3644_20E6_C605
  {
  }

  /** The published check value of CRC-64/XZ: the checksum of the ASCII digits 1 to 9. */
  lemma CheckValue()
    ensures Checksum([0x31, 0x32, 0x33, 0x34, 0x35, 0x36, 0x37, 0x38, 0x39]) == 0x995D_C9BB_DF19_39FA
  {
    hide Update, ShiftByte;
    var data: Bytes := [0x31, 0x32, 0x33, 0x34, 0x35, 0x36, 0x37, 0x38, 0x39];
    assert data[..9] == data;
    UpdateNone(data);
    DigitShifts();
    UpdateOne(data, 0);
    UpdateOne(data, 1);
    UpdateOne(data, 2);
    UpdateOne(data, 3);
    UpdateOne(data, 4);
    UpdateOne(data, 5);
    UpdateOne(data, 6);
    UpdateOne(data, 7);
    UpdateOne(data, 8);
  }
}
