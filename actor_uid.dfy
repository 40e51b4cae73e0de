/**
 * ActorUID: a 32-bit handle that packs a 16-bit salt (high half) and a
 * 16-bit slot index (low half) of the map's actor vector.
 *
 * The constructor computes ((salt << 16) & 0xFFFF0000) | (index & 0x0000FFFF)
 * on 32-bit unsigned values. Shifting left by 16 and masking keeps the low 16
 * bits of the salt in the high half; the two halves are disjoint, so the
 * bitwise or is a sum. The model states that packing arithmetically.
 */
module ActorUIDs {

  /** An `unsigned int`. */
  newtype u32 = x: int | 0 <= x < 0x1_0000_0000

  /** 2^16: one past the largest salt or index the handle can hold. */
  const HALF: nat := 0x1_0000

  datatype ActorUID = ActorUID(data: u32)
  {
    /** The slot index: m_data & INDEX_BITFIELD. */
    function GetIndex(): (index: nat)
      ensures index < HALF
    {
      data as int % HALF
    }

    /** The salt bits, (m_data & SALT_BITFIELD) >> 16 (the source never reads them back). */
    function GetSalt(): (salt: nat)
      ensures salt < HALF
    {
      data as int / HALF
    }

    /** ActorUID::INVALID = ActorUID(0x0000FFFF, 0x0000FFFF). */
    static const INVALID: ActorUID := Mint(0xFFFF, 0xFFFF)

    /** IsValid: the handle is not the INVALID sentinel. */
    predicate IsValid()
    {
      this != INVALID
    }
  }

  /**
   * ActorUID(salt, index). Both arguments are `unsigned int`; callers pass
   * counters that may exceed 32 bits in the model, and only their low 16
   * bits survive the masks, which is also what the 32-bit truncation keeps.
   */
  function Mint(salt: nat, index: nat): (uid: ActorUID)
    ensures uid.GetIndex() == index % HALF
    ensures uid.GetSalt() == salt % HALF
  {
    ActorUID(((salt % HALF) * HALF + index % HALF) as u32)
  }

  /** The default member value: m_data = 0xFFFFFFFF. */
  const DEFAULT: ActorUID := ActorUID(0xFFFF_FFFF)

  /** operator== compares m_data, which is all a handle holds; operator!= is its negation. */
  lemma EqualityIsDataEquality(a: ActorUID, b: ActorUID)
    ensures (a == b) <==> (a.data == b.data)
    ensures (a != b) <==> !(a.data == b.data)
  {
  }

  /** Two handles are equal exactly when salt and index agree modulo 2^16. */
  lemma MintInjective(salt1: nat, index1: nat, salt2: nat, index2: nat)
    ensures Mint(salt1, index1) == Mint(salt2, index2)
        <==> salt1 % HALF == salt2 % HALF && index1 % HALF == index2 % HALF
  {
    var a, b := Mint(salt1, index1), Mint(salt2, index2);
    if a == b {
      assert a.GetIndex() == b.GetIndex() && a.GetSalt() == b.GetSalt();
    }
  }

  /** A handle is its salt and its index: two handles that agree on both are equal. */
  lemma SaltAndIndexDetermineHandle(a: ActorUID, b: ActorUID)
    requires a.GetSalt() == b.GetSalt() && a.GetIndex() == b.GetIndex()
    ensures a == b
  {
    assert a.data as int == a.GetSalt() * HALF + a.GetIndex();
    assert b.data as int == b.GetSalt() * HALF + b.GetIndex();
  }

  /** Salt bits above the sixteenth are discarded: the salt wraps every 2^16 spawns. */
  lemma SaltWraps(salt: nat, index: nat)
    ensures Mint(salt + HALF, index) == Mint(salt, index)
  {
    MintInjective(salt + HALF, index, salt, index);
  }

  /** The default handle is the sentinel, is not valid, and INVALID's index is 0xFFFF. */
  lemma DefaultIsInvalid()
    ensures DEFAULT == ActorUID.INVALID
    ensures !DEFAULT.IsValid() && !ActorUID.INVALID.IsValid()
    ensures ActorUID.INVALID.GetIndex() == 0xFFFF
  {
  }

  /** A handle equals INVALID exactly when both its salt and its index are 0xFFFF modulo 2^16. */
  lemma SentinelCollision(salt: nat, index: nat)
    ensures Mint(salt, index) == ActorUID.INVALID <==> salt % HALF == 0xFFFF && index % HALF == 0xFFFF
  {
    MintInjective(salt, index, 0xFFFF, 0xFFFF);
  }
}
