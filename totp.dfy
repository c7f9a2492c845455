/**
 * The displayed TOTP code of an entry: the HOTP value of the time step
 * `seconds / 30`, reduced to 6 digits and printed zero-padded to 6
 * characters (`GenApp::get_code`; `{:06}` in the older binary).
 */
module Totp {
  import opened Common
  import opened Foreign

  /** `DEFAULT_STEP` of `totp_lite`, the `30` passed to `oath`. */
  const STEP: nat := 30
  /** The number of digits asked for. */
  const DIGITS: nat := 6

  function Pow10(k: nat): (r: nat)
    ensures r >= 1
  {
    if k == 0 then 1 else 10 * Pow10(k - 1)
  }

  predicate IsDigit(c: char)
  {
    '0' <= c <= '9'
  }

  predicate AllDigits(s: string)
  {
    forall i | 0 <= i < |s| :: IsDigit(s[i])
  }

  function DigitChar(d: nat): (c: char)
    requires d < 10
  {
    ('0' as int + d) as char
  }

  /** The number a string of decimal digits denotes, most significant first. */
  function DecimalValue(s: string): nat
    requires AllDigits(s)
  {
    if s == [] then 0
    else DecimalValue(s[..|s| - 1]) * 10 + (s[|s| - 1] as int - '0' as int)
  }

  /** The last `width` decimal digits of `n`, zero-padded on the left. */
  function Digits(n: nat, width: nat): (s: string)
    ensures |s| == width && AllDigits(s)
  {
    if width == 0 then [] else Digits(n / 10, width - 1) + [DigitChar(n % 10)]
  }

  /** Printing `n` in `width` digits and reading the digits back gives `n` when it fits. */
  lemma {:induction false} DigitsValue(n: nat, width: nat)
    requires n < Pow10(width)
    ensures DecimalValue(Digits(n, width)) == n
  {
    if width > 0 {
      var s := Digits(n, width);
      assert s[..|s| - 1] == Digits(n / 10, width - 1);
      DigitsValue(n / 10, width - 1);
    }
  }

  /** `format!("{:06}", n)` for a value that fits six digits. */
  function ZeroPad6(n: nat): (s: string)
    requires n < Pow10(DIGITS)
    ensures |s| == DIGITS && AllDigits(s) && DecimalValue(s) == n
  {
    DigitsValue(n, DIGITS);
    Digits(n, DIGITS)
  }

  /** The code shown for an entry's secret at `seconds` since the epoch. */
  function Code(p: Primitives, secretBytes: seq<byte>, seconds: nat): (code: string)
    ensures |code| == DIGITS && AllDigits(code)
    ensures DecimalValue(code) == p.hotp(secretBytes, seconds / STEP) % Pow10(DIGITS)
  {
    ZeroPad6(p.hotp(secretBytes, seconds / STEP) % Pow10(DIGITS))
  }

  /** Two instants in the same 30-second window show the same code. */
  lemma SameWindowSameCode(p: Primitives, secretBytes: seq<byte>, t1: nat, t2: nat)
    requires t1 / STEP == t2 / STEP
    ensures Code(p, secretBytes, t1) == Code(p, secretBytes, t2)
  {
  }
}
