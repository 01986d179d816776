/** Discord permission bitmasks as arbitrary-precision integers (JavaScript
    `BigInt`), the MANAGE_GUILD test `(permissions & 0x20n) === 0x20n`, and a
    decimal reading of permission strings that is exact at every size. */
module Permissions {
  import opened Common
  import opened JsString
  import opened Json

  /** The MANAGE_GUILD permission bit. */
  const ManageGuild: nat := 0x20

  /** Bitwise AND of two naturals, one bit at a time from the low end. */
  function NatAnd(a: nat, b: nat): nat
    decreases a
  {
    if a == 0 || b == 0 then 0
    else 2 * NatAnd(a / 2, b / 2) + (if a % 2 == 1 && b % 2 == 1 then 1 else 0)
  }

  /** `BigInt` `&` with a non-negative mask. A negative `BigInt` behaves as an
      infinite two's-complement bit string: for `x < 0`, `x == ~y` with
      `y == -1 - x >= 0`, and `~y & m == m - (y & m)` for every mask `m >= 0`. */
  function BigIntAnd(x: int, mask: nat): int {
    if x >= 0 then NatAnd(x, mask) else mask - NatAnd(-1 - x, mask)
  }

  /** The gate's test, written as the route writes it. */
  predicate HasManageGuild(p: int) {
    BigIntAnd(p, ManageGuild) == ManageGuild
  }

  lemma NatAndOne(x: nat)
    ensures NatAnd(x, 1) == x % 2
  {
  }

  lemma NatAndHalve(x: nat, b: nat)
    requires b > 0 && b % 2 == 0
    ensures NatAnd(x, b) == 2 * NatAnd(x / 2, b / 2)
  {
  }

  /** ANDing with 0x20 isolates bit 5. */
  lemma NatAndBit5(a: nat)
    ensures NatAnd(a, 32) == 32 * ((a / 32) % 2)
  {
    var a1, a2, a3, a4, a5 := a / 2, a / 4, a / 8, a / 16, a / 32;
    assert a1 / 2 == a2 && a2 / 2 == a3 && a3 / 2 == a4 && a4 / 2 == a5;
    NatAndHalve(a, 32);
    NatAndHalve(a1, 16);
    NatAndHalve(a2, 8);
    NatAndHalve(a3, 4);
    NatAndHalve(a4, 2);
    NatAndOne(a5);
  }

  lemma FloorOfComplement(y: nat)
    ensures (-1 - y) / 32 == -1 - y / 32
  {
  }

  /** The MANAGE_GUILD test holds exactly when bit 5 of the two's-complement
      value is set, for every integer, however large and of either sign. */
  lemma ManageGuildBit(p: int)
    ensures HasManageGuild(p) <==> (p / 32) % 2 == 1
  {
    if p >= 0 {
      NatAndBit5(p);
    } else {
      NatAndBit5(-1 - p);
      FloorOfComplement(-1 - p);
    }
  }

  /** Value of a decimal digit. */
  function DigitValue(c: char): nat
    requires IsAsciiDigit(c)
  {
    (c as int - '0' as int) as nat
  }

  /** Value of a string of decimal digits, most significant first, exact at any length. */
  function DecimalValue(s: string): nat
    requires forall i :: 0 <= i < |s| ==> IsAsciiDigit(s[i])
    decreases |s|
  {
    if s == [] then 0 else DecimalValue(s[..|s| - 1]) * 10 + DigitValue(s[|s| - 1])
  }

  function DigitChar(d: nat): (c: char)
    requires d < 10
    ensures IsAsciiDigit(c) && DigitValue(c) == d
  {
    ('0' as int + d) as char
  }

  /** The canonical decimal rendering of a natural (the form Discord sends). */
  function ToDecimal(n: nat): (s: string)
    ensures IsDigitString(s)
    decreases n
  {
    if n < 10 then [DigitChar(n)] else ToDecimal(n / 10) + [DigitChar(n % 10)]
  }

  /** Reading back a rendered natural gives the natural. */
  lemma {:induction false} DecimalRoundTrip(n: nat)
    ensures DecimalValue(ToDecimal(n)) == n
    decreases n
  {
    if n >= 10 {
      var s := ToDecimal(n);
      assert s[..|s| - 1] == ToDecimal(n / 10);
      DecimalRoundTrip(n / 10);
    }
  }

  /** The decimal part of `BigInt(v)` for a parsed permissions value: a JSON
      string of ASCII digits reads as its exact value; anything else is rejected
      here (the full coercion `BigInt` applies is a parameter of the routes). */
  function DecimalBigInt(v: Json): (r: Option<int>)
    ensures r.Some? ==> r.value >= 0
  {
    match v
    case JStr(s) => if IsDigitString(s) then Some(DecimalValue(s)) else None
    case _ => None
  }

  /** A permissions string as Discord renders it is read back exactly, whatever
      its size: no rounding to the 53-bit precision of a JavaScript number. */
  lemma DecimalBigIntExact(n: nat)
    ensures DecimalBigInt(JStr(ToDecimal(n))) == Some(n)
  {
    DecimalRoundTrip(n);
  }

  /** Values past 2^53 are decided exactly: 2^60 + 32 has MANAGE_GUILD (a double
      would round that bit away) and 2^60 does not. */
  lemma ManageGuildBeyondDoublePrecision()
    ensures HasManageGuild(1152921504606847008)
    ensures !HasManageGuild(1152921504606846976)
  {
    ManageGuildBit(1152921504606847008);
    ManageGuildBit(1152921504606846976);
  }
}
