/** Shared value types: optional values, results, bytes and the hex and
    decimal renderings the services use for hashes and token ids. */
module Text {

  datatype Option<+T> = None | Some(value: T)

  datatype Result<+T, +E> = Success(value: T) | Failure(error: E)

  newtype byte = x: int | 0 <= x < 256

  /** The JavaScript values the model inspects. Numbers are integers here. */
  datatype JsValue = Undefined | Num(n: int) | Str(s: string) | OtherValue

  /** An error raised by code outside the model (a library, the ledger client,
      the database driver, the blob store): its `code` property and `message`. */
  datatype Fault = Fault(code: JsValue, message: string)

  /** `s.startsWith(p)` */
  predicate StartsWith(s: string, p: string) {
    |p| <= |s| && s[..|p|] == p
  }

  /** The lower-case hex digit for a nibble, as `digest('hex')` writes it. */
  function HexDigit(n: int): (c: char)
    requires 0 <= n < 16
    ensures IsHexChar(c)
    ensures !('A' <= c <= 'F')
  {
    "0123456789abcdef"[n]
  }

  /** A character matched by `[a-fA-F0-9]`. */
  predicate IsHexChar(c: char) {
    ('0' <= c <= '9') || ('a' <= c <= 'f') || ('A' <= c <= 'F')
  }

  /** A string of hex digits. */
  predicate IsHexText(s: string) {
    forall i :: 0 <= i < |s| ==> IsHexChar(s[i])
  }

  /** The value of a hex digit, in either case. */
  function HexValue(c: char): (n: int)
    requires IsHexChar(c)
    ensures 0 <= n < 16
  {
    if '0' <= c <= '9' then c as int - '0' as int
    else if 'a' <= c <= 'f' then c as int - 'a' as int + 10
    else c as int - 'A' as int + 10
  }

  lemma HexValueOfDigit(n: int)
    requires 0 <= n < 16
    ensures HexValue(HexDigit(n)) == n
  {
  }

  /** Node's `digest('hex')`: two lower-case digits per byte, high nibble first. */
  function Hex(bs: seq<byte>): (s: string)
    ensures |s| == 2 * |bs|
    ensures IsHexText(s)
    ensures forall i :: 0 <= i < |s| ==> !('A' <= s[i] <= 'F')
  {
    if bs == [] then []
    else [HexDigit(bs[0] as int / 16), HexDigit(bs[0] as int % 16)] + Hex(bs[1..])
  }

  /** Reads a string of an even number of hex digits back into bytes. */
  function Unhex(s: string): (bs: seq<byte>)
    requires |s| % 2 == 0
    requires IsHexText(s)
    ensures 2 * |bs| == |s|
  {
    if s == [] then []
    else [(HexValue(s[0]) * 16 + HexValue(s[1])) as byte] + Unhex(s[2..])
  }

  /** The two digits of a byte read back to the byte. */
  lemma NibblesRoundTrip(b: int)
    requires 0 <= b < 256
    ensures HexValue(HexDigit(b / 16)) * 16 + HexValue(HexDigit(b % 16)) == b
  {
    HexValueOfDigit(b / 16);
    HexValueOfDigit(b % 16);
  }

  /** Reading two digits in front of a hex string. */
  lemma UnhexCons(hi: char, lo: char, rest: string)
    requires IsHexChar(hi) && IsHexChar(lo) && |rest| % 2 == 0 && IsHexText(rest)
    ensures IsHexText([hi, lo] + rest)
    ensures Unhex([hi, lo] + rest) == [(HexValue(hi) * 16 + HexValue(lo)) as byte] + Unhex(rest)
  {
    var s := [hi, lo] + rest;
    assert s[2..] == rest;
  }

  /** Hex encoding loses nothing: reading it back gives the bytes. */
  lemma {:induction false} UnhexHex(bs: seq<byte>)
    ensures Unhex(Hex(bs)) == bs
  {
    if bs != [] {
      var b := bs[0] as int;
      var hi, lo, rest := HexDigit(b / 16), HexDigit(b % 16), Hex(bs[1..]);
      assert Hex(bs) == [hi, lo] + rest;
      UnhexCons(hi, lo, rest);
      NibblesRoundTrip(b);
      UnhexHex(bs[1..]);
      assert bs == [b as byte] + bs[1..];
    }
  }

  /** Equal hex renderings come from equal byte strings. */
  lemma HexInjective(a: seq<byte>, b: seq<byte>)
    requires Hex(a) == Hex(b)
    ensures a == b
  {
    UnhexHex(a);
    UnhexHex(b);
  }

  /** `n.toString()` for a non-negative bigint. */
  function DecimalString(n: nat): (s: string)
    ensures |s| > 0
    ensures forall i :: 0 <= i < |s| ==> '0' <= s[i] <= '9'
    decreases n
  {
    if n < 10 then ["0123456789"[n]]
    else DecimalString(n / 10) + ["0123456789"[n % 10]]
  }

  /** The value a string of decimal digits denotes. */
  function DecimalValue(s: string): nat
    requires forall i :: 0 <= i < |s| ==> '0' <= s[i] <= '9'
  {
    if s == [] then 0
    else DecimalValue(s[..|s| - 1]) * 10 + (s[|s| - 1] as int - '0' as int)
  }

  lemma {:induction false} DecimalRoundTrip(n: nat)
    ensures DecimalValue(DecimalString(n)) == n
    decreases n
  {
    if n >= 10 {
      var s := DecimalString(n);
      assert s[..|s| - 1] == DecimalString(n / 10);
      DecimalRoundTrip(n / 10);
    }
  }

  /** Distinct token ids are stored as distinct strings. */
  lemma DecimalStringInjective(m: nat, n: nat)
    requires DecimalString(m) == DecimalString(n)
    ensures m == n
  {
    DecimalRoundTrip(m);
    DecimalRoundTrip(n);
  }
}
