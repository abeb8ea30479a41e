/** What the two Mongoose schemas share: the status enumeration, the
    `^0x[a-fA-F0-9]{64}$` hash format and Mongoose's `required` test on strings. */
module SchemaTypes {
  import opened Text

  /** `'minted' | 'pending' | 'failed'` */
  datatype Status = Minted | Pending | Failed

  /** The schemas' `default: 'pending'`. */
  const DEFAULT_STATUS: Status := Pending

  /** The stored string of a status. */
  function StatusName(st: Status): string {
    match st
    case Minted => "minted"
    case Pending => "pending"
    case Failed => "failed"
  }

  /** The `enum` validator: the three names and nothing else. */
  function ParseStatus(s: string): (r: Option<Status>)
    ensures r.Some? <==> s in {"minted", "pending", "failed"}
    ensures r.Some? ==> StatusName(r.value) == s
  {
    if s == "minted" then Some(Minted)
    else if s == "pending" then Some(Pending)
    else if s == "failed" then Some(Failed)
    else None
  }

  lemma StatusNameRoundTrip(st: Status)
    ensures ParseStatus(StatusName(st)) == Some(st)
  {
  }

  /** The `match: /^0x[a-fA-F0-9]{64}$/` validator. */
  predicate IsHash32(s: string) {
    |s| == 66 && s[..2] == "0x" && forall i :: 2 <= i < 66 ==> IsHexChar(s[i])
  }

  /** `'0x' + digest('hex')` of a 32-byte digest, as the services build hashes. */
  function Bytes32Hex(digest: seq<byte>): (s: string)
    ensures |s| == 2 + 2 * |digest| && s[..2] == "0x" && s[2..] == Hex(digest)
  {
    "0x" + Hex(digest)
  }

  /** Such a string always passes the schema's hash validator. */
  lemma DigestMatchesHashFormat(digest: seq<byte>)
    requires |digest| == 32
    ensures IsHash32(Bytes32Hex(digest))
  {
    var s := Bytes32Hex(digest);
    forall i | 2 <= i < 66 ensures IsHexChar(s[i]) {
      assert s[i] == Hex(digest)[i - 2];
    }
  }

  /** Distinct digests give distinct stored hashes. */
  lemma Bytes32HexInjective(a: seq<byte>, b: seq<byte>)
    requires Bytes32Hex(a) == Bytes32Hex(b)
    ensures a == b
  {
    assert Hex(a) == Bytes32Hex(a)[2..];
    HexInjective(a, b);
  }

  /** A string that passes the validator names exactly one 32-byte value. */
  lemma HashFormatDecodes(s: string)
    requires IsHash32(s)
    ensures |Unhex(s[2..])| == 32
  {
  }

  /** Mongoose's `required: true` on a String path: present and not empty. */
  predicate RequiredString(s: Option<string>) {
    s.Some? && s.value != ""
  }
}
