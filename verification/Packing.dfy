/** `src/utils.rs`: the database and the memory handle packed in a worker's one 64-bit argument. */
module Packing {

  // `as i64` and `as u64` keep all 64 bits, so one bit-vector stands for both.

  function PackOidDsmh(oid: bv32, dsmh: bv32): bv64 {
    ((oid as bv64) << 32) | (dsmh as bv64)
  }

  function UnpackOidDsmh(value: bv64): (bv32, bv32) {
    ((value >> 32) as bv32, (value & 0xFFFF_FFFF) as bv32)
  }

  /** Packing is a bijection: both ways round nothing is lost. */
  lemma PackingBijective(oid: bv32, dsmh: bv32, value: bv64)
    ensures UnpackOidDsmh(PackOidDsmh(oid, dsmh)) == (oid, dsmh)
    ensures var (o, d) := UnpackOidDsmh(value); PackOidDsmh(o, d) == value
  {
  }

  /** The database is the upper half and the handle the lower: `oid * 2^32 + dsmh`. */
  lemma PackingIsPositional(oid: bv32, dsmh: bv32, value: bv64)
    ensures PackOidDsmh(oid, dsmh) == (oid as bv64) * 0x1_0000_0000 + (dsmh as bv64)
    ensures var (o, d) := UnpackOidDsmh(value);
            (o as bv64) == value / 0x1_0000_0000 && (d as bv64) == value % 0x1_0000_0000
  {
  }
}
