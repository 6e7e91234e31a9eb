/**
 * The collaborators of the compositor window that this model cannot see:
 * C++ fixed-width integers, the QVariant coercions of Qt and the window-type
 * table of windowtype.h.  They enter the model as values, never as code.
 */
module Qt {

  const U32_MODULUS: int := 0x1_0000_0000

  /** C++ `unsigned int` (32 bits). */
  type u32 = x: int | 0 <= x < U32_MODULUS

  /** C++ `int` (32 bits), the result type of `QVariant::toInt`. */
  type i32 = x: int | -0x8000_0000 <= x < 0x8000_0000

  /**
   * The implicit conversion of an `int` to an `unsigned int`: C++ keeps the
   * value modulo 2^32, so a negative parent id wraps around.
   */
  function ToUnsigned(i: i32): (u: u32)
    ensures (u - i) % U32_MODULUS == 0
  {
    if i < 0 then i + U32_MODULUS else i
  }

  /**
   * Behaviour of unseen code, kept uninterpreted.  V stands for QVariant.
   *   asString, asBool, asInt -- QVariant::toString, toBool, toInt
   *   windowTypeOf            -- WindowType::fromString (windowtype.h)
   *   card                    -- the enumerator WindowType::Card
   *   invalid                 -- a default-constructed QVariant()
   */
  datatype Platform<!V> = Platform(
    asString: V -> string,
    asBool: V -> bool,
    asInt: V -> i32,
    windowTypeOf: string -> u32,
    card: u32,
    invalid: V)
}
