/** Room identifiers: the 16 bytes of a UUIDv8 (section 5.8 of RFC 9562). */
module Uuid {
  import opened Options

  type Byte = x: int | 0 <= x < 256

  /** Version 8 in the high nibble of byte 6, the RFC 9562 variant in the two high bits of byte 8. */
  predicate IsRoomUuid(bytes: seq<Byte>) {
    |bytes| == 16 && bytes[6] / 16 == 8 && bytes[8] / 64 == 2
  }

  /** `room_id_from_bytes`: anything but the 16 bytes of a UUIDv8 is rejected. */
  function RoomIdFromBytes(bytes: seq<Byte>): Option<seq<Byte>> {
    if IsRoomUuid(bytes) then Some(bytes) else None
  }

  /** The big-endian value of the bytes. */
  function AsU128(bytes: seq<Byte>): nat {
    if bytes == [] then 0 else AsU128(bytes[..|bytes| - 1]) * 256 + bytes[|bytes| - 1]
  }

  function Power256(n: nat): nat {
    if n == 0 then 1 else 256 * Power256(n - 1)
  }

  /** Each byte counts by its distance from the end: the first one most. */
  lemma {:induction false} FirstByteCountsMost(first: Byte, rest: seq<Byte>)
    ensures AsU128([first] + rest) == first * Power256(|rest|) + AsU128(rest)
    ensures AsU128(rest) < Power256(|rest|)
    decreases |rest|
  {
    if rest == [] {
      assert [first] + rest == [first] && [first][..0] == [];
    } else {
      var init := rest[..|rest| - 1];
      FirstByteCountsMost(first, init);
      assert ([first] + rest)[..|rest|] == [first] + init;
      Regroup(first, Power256(|init|));
    }
  }

  lemma Regroup(x: nat, p: nat)
    ensures x * p * 256 == x * (256 * p)
  {
  }

  /** Sixteen bytes have a value of 128 bits, and no two rooms have the same. */
  lemma {:induction false} ValuesTellApart(a: seq<Byte>, b: seq<Byte>)
    requires |a| == |b|
    ensures AsU128(a) == AsU128(b) <==> a == b
    decreases |a|
  {
    if a != [] {
      var n := |a| - 1;
      ValuesTellApart(a[..n], b[..n]);
      assert a == a[..n] + [a[n]] && b == b[..n] + [b[n]];
    }
  }
}
