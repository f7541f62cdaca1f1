/** One-time codes: internal/auth/totp.go, after RFC 4226 section 5.3 and RFC 6238 section 5.2. */
module Totp {
  import opened Basics
  import Encoding
  import Tokens

  const DIGITS := 6
  const PERIOD := 30
  const SKEW := 1

  // HMAC-SHA1 of an 8-byte counter: 20 bytes.
  type Mac = mac: (Bytes, Bytes) -> Bytes | forall key, text :: |mac(key, text)| == 20 witness (key, text) => seq(20, _ => 0)

  function Pow10(n: nat): nat { if n == 0 then 1 else 10 * Pow10(n - 1) }

  // A string of bytes, or of decimal digits, as a number.
  function Number(b: Bytes): nat { if b == [] then 0 else Number(b[..|b| - 1]) * 256 + b[|b| - 1] as nat }

  predicate Digit(c: char) { '0' <= c <= '9' }

  predicate AllDigits(s: string) { forall i | 0 <= i < |s| :: Digit(s[i]) }

  function Decimal(s: string): nat
    requires AllDigits(s)
  { if s == "" then 0 else Decimal(s[..|s| - 1]) * 10 + (s[|s| - 1] - '0') as nat }

  // %0*d for a number of at most `digits` digits.
  function Padded(n: nat, digits: nat): (s: string)
    requires n < Pow10(digits)
    ensures |s| == digits && AllDigits(s) && Decimal(s) == n
  {
    if digits == 0 then "" else
      var s := Padded(n / 10, digits - 1) + ['0' + (n % 10) as char];
      assert s[..digits - 1] == Padded(n / 10, digits - 1);
      s
  }

  // DT(String): the low 31 bits of the four bytes at the offset in the low half of the last byte.
  function Truncated(sum: Bytes): (n: nat)
    requires |sum| == 20
  {
    var offset := (sum[19] % 16) as nat;
    Number(sum[offset..offset + 4]) % 0x8000_0000
  }

  // HOTP(K, C) = Truncate(HMAC-SHA-1(K, C)), as `digits` decimal digits.
  function Hotp(mac: Mac, secret: Bytes, step: nat, digits: nat): (s: string)
    ensures |s| == digits && AllDigits(s)
  {
    PowPositive(digits);
    Padded(Truncated(mac(secret, Encoding.BigEndian(step, 8))) % Pow10(digits), digits)
  }

  lemma {:induction false} PowPositive(n: nat)
    ensures Pow10(n) > 0
  { if n > 0 { PowPositive(n - 1); } }

  // The shifted and masked bytes, added up, are the low 31 bits of the four bytes.
  lemma FourBytes(b: Bytes)
    requires |b| == 4
    ensures (b[0] % 128) as nat * 0x100_0000 + b[1] as nat * 0x1_0000 + b[2] as nat * 0x100 + b[3] as nat == Number(b) % 0x8000_0000
  {
    var low := b[1] as nat * 0x1_0000 + b[2] as nat * 0x100 + b[3] as nat;
    assert Number(b[..1]) == Number(b[..1][..0]) * 256 + b[0] as nat;
    assert b[..2][..1] == b[..1] && b[..3][..2] == b[..2];
    assert Number(b[..1]) == b[0] as nat;
    assert Number(b[..2]) == Number(b[..1]) * 256 + b[1] as nat;
    assert Number(b[..3]) == Number(b[..2]) * 256 + b[2] as nat;
    assert Number(b) == Number(b[..3]) * 256 + b[3] as nat;
    assert Number(b) == b[0] as nat * 0x100_0000 + low;
    var high := (b[0] / 128) as nat;
    assert b[0] as nat == high * 128 + (b[0] % 128) as nat;
    assert Number(b) == high * 0x8000_0000 + ((b[0] % 128) as nat * 0x100_0000 + low);
  }

  // The worked example of section 5.4 of RFC 4226.
  const Example: Bytes := [0x1f, 0x86, 0x98, 0x69, 0x0e, 0x02, 0xca, 0x16, 0x61, 0x85, 0x50, 0xef, 0x7f, 0x19, 0xda, 0x8e, 0x94, 0x5b, 0x55, 0x5a]

  lemma ExampleTruncated()
    ensures Truncated(Example) == 0x50ef7f19
  {
    var four := Example[10..14];
    assert four == [0x50, 0xef, 0x7f, 0x19];
    FourBytes(four);
  }

  lemma ExamplePadded()
    ensures 872921 < Pow10(6) && Padded(872921, 6) == "872921"
  {
    assert Padded(8, 1) == "8";
    assert Padded(87, 2) == "87";
    assert Padded(872, 3) == "872";
    assert Padded(8729, 4) == "8729";
    assert Padded(87292, 5) == "87292";
  }

  lemma StandardExample(mac: Mac, secret: Bytes, step: nat)
    requires mac(secret, Encoding.BigEndian(step, 8)) == Example
    ensures Hotp(mac, secret, step, 6) == "872921"
  {
    ExampleTruncated();
    ExamplePadded();
    assert Pow10(6) == 1000000;
  }

  method TOTPCode(mac: Mac, secret: Bytes, step: nat, digits: nat) returns (code: string)
    ensures code == Hotp(mac, secret, step, digits)
  {
    var sum := mac(secret, Encoding.BigEndian(step, 8));
    var offset := (sum[|sum| - 1] % 16) as nat;
    var value := (sum[offset] % 128) as nat * 0x100_0000 + sum[offset + 1] as nat * 0x1_0000 + sum[offset + 2] as nat * 0x100 + sum[offset + 3] as nat;
    FourBytes(sum[offset..offset + 4]);
    var modulo := 1;
    for i := 0 to digits
      invariant modulo == Pow10(i)
    {
      modulo := modulo * 10;
    }
    PowPositive(digits);
    code := Padded(value % modulo, digits);
  }

  // Go's integer division rounds toward zero.
  function StepOf(seconds: int): int { if seconds >= 0 then seconds / PERIOD else -((-seconds) / PERIOD) }

  // The steps of 30 seconds that a clock at `now` accepts: the current one, the one before and the one after. Before time 0
  // the current step is rounded up.
  predicate InWindow(now: int, s: nat) {
    if now >= 0 then 30 * (s - 1) <= now < 30 * (s + 2) else (s == 0 && now > -60) || (s == 1 && now > -30)
  }

  predicate Accepts(mac: Mac, secret: Bytes, code: string, now: int, last: int, s: nat) {
    InWindow(now, s) && last < s && Hotp(mac, secret, s, 6) == Tokens.Trim(code)
  }

  lemma WindowMeaning(now: int)
    ensures forall s: nat :: StepOf(now) - SKEW <= s <= StepOf(now) + SKEW <==> InWindow(now, s)
  {}

  /** Accepts the least unused matching step of the window, and nothing else. `last` is -1 before any step was used. */
  method ValidateTOTP(mac: Mac, secret: Bytes, code: string, now: int, last: int) returns (r: Option<nat>)
    requires last >= -1
    ensures r.Some? ==> Accepts(mac, secret, code, now, last, r.value) && forall s: nat | s < r.value :: !Accepts(mac, secret, code, now, last, s)
    ensures r.None? ==> forall s: nat :: !Accepts(mac, secret, code, now, last, s)
  {
    WindowMeaning(now);
    var normalized := Tokens.Trim(code);
    if |normalized| != DIGITS { return None; }
    for i := 0 to |normalized|
      invariant AllDigits(normalized[..i])
    {
      if normalized[i] < '0' || normalized[i] > '9' {
        assert forall s: nat :: Hotp(mac, secret, s, DIGITS) != normalized;
        return None;
      }
    }
    var current := StepOf(now);
    var accepted := -1;
    var step := current - SKEW;
    while step <= current + SKEW
      invariant current - SKEW <= step <= current + SKEW + 1 && accepted == -1
      invariant forall s: nat | s < step :: !Accepts(mac, secret, code, now, last, s)
    {
      if step < 0 { step := step + 1; continue; }
      if last >= 0 && step <= last { step := step + 1; continue; }
      var expected := TOTPCode(mac, secret, step, DIGITS);
      if expected == normalized {
        accepted := step;
        break;
      }
      step := step + 1;
    }
    if accepted < 0 { return None; }
    r := Some(accepted);
  }
}
