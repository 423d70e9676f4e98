/**
 * Java's 32-bit `int` and its signed remainder, the two pieces of Java
 * arithmetic that the game canvas relies on.
 */
module JavaInt {

  const INT_MIN: int := -0x8000_0000
  const INT_MAX: int := 0x7FFF_FFFF
  const TWO_32: int := 0x1_0000_0000

  /** Values a Java `int` can hold. */
  predicate IsInt32(x: int) {
    INT_MIN <= x <= INT_MAX
  }

  /** An unsigned 8-bit value: a Java `byte` seen through `b & 0xFF`. */
  type Octet = b: int | 0 <= b < 256

  /**
   * Two's-complement wrap-around: the `int` that Java arithmetic produces for the
   * mathematical value `x`.
   */
  function Wrap(x: int): (r: int)
    ensures IsInt32(r)
    ensures (x - r) % TWO_32 == 0
    ensures IsInt32(x) ==> r == x
  {
    (x - INT_MIN) % TWO_32 + INT_MIN
  }

  /** Java's `a / b` for a positive divisor: the quotient truncated toward zero. */
  function Quot(a: int, b: int): int
    requires b > 0
  {
    if a >= 0 then a / b else -((-a) / b)
  }

  /**
   * Java's `a % b` for a positive divisor: what truncated division leaves, so
   * the remainder takes the sign of `a`.
   */
  function Rem(a: int, b: int): (r: int)
    requires b > 0
    ensures -b < r < b
    ensures a >= 0 ==> 0 <= r
    ensures a <= 0 ==> r <= 0
    ensures a == b * Quot(a, b) + r
    ensures a >= 0 ==> r == a % b
    ensures -b < a < b ==> r == a
  {
    if a >= 0 then a % b else -((-a) % b)
  }
}

/**
 * The big-endian `int` encoding of `java.io.DataOutput.writeInt` and its inverse
 * `java.io.DataInput.readInt`.
 */
module DataStream {
  import opened JavaInt

  /** The four bytes `writeInt(x)` emits, high byte first. */
  function WriteInt(x: int): (r: seq<Octet>)
    requires IsInt32(x)
    ensures |r| == 4
  {
    var u := if x < 0 then x + TWO_32 else x;
    var q1 := u / 256;
    var q2 := q1 / 256;
    [q2 / 256, q2 % 256, q1 % 256, u % 256]
  }

  /** The unsigned value of four bytes read high byte first. */
  function Unsigned(b: seq<Octet>): (u: int)
    requires |b| == 4
    ensures 0 <= u < TWO_32
  {
    var b0: int, b1: int, b2: int, b3: int := b[0], b[1], b[2], b[3];
    ((b0 * 256 + b1) * 256 + b2) * 256 + b3
  }

  /** `readInt` over four bytes: `(b0 << 24) + (b1 << 16) + (b2 << 8) + b3` in `int` arithmetic. */
  function ReadInt(b: seq<Octet>): (r: int)
    requires |b| == 4
    ensures IsInt32(r)
  {
    Wrap(Unsigned(b))
  }

  /** Reading back what `writeInt` wrote gives the same `int`. */
  lemma ReadWriteInt(x: int)
    requires IsInt32(x)
    ensures ReadInt(WriteInt(x)) == x
  {
    var u := if x < 0 then x + TWO_32 else x;
    var q1 := u / 256;
    var q2 := q1 / 256;
    assert q2 == (q2 / 256) * 256 + q2 % 256;
    assert q1 == q2 * 256 + q1 % 256;
    assert u == q1 * 256 + u % 256;
    assert Unsigned(WriteInt(x)) == u;
  }

  /** Every 4-byte group is the encoding of exactly one `int`: `writeInt` undoes `readInt`. */
  lemma WriteReadInt(b: seq<Octet>)
    requires |b| == 4
    ensures WriteInt(ReadInt(b)) == b
  {
    var b0: int, b1: int, b2: int, b3: int := b[0], b[1], b[2], b[3];
    var q2 := b0 * 256 + b1;
    var q1 := q2 * 256 + b2;
    var u := q1 * 256 + b3;
    assert Unsigned(b) == u;
    assert ReadInt(b) == (if u <= INT_MAX then u else u - TWO_32);
    assert u / 256 == q1 && u % 256 == b3;
    assert q1 / 256 == q2 && q1 % 256 == b2;
    assert q2 / 256 == b0 && q2 % 256 == b1;
  }
}
