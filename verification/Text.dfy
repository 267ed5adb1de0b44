/** Reading identifiers from path segments, and writing digests as lookup keys. */
module Text {
  import opened Domain

  type Byte = b: int | 0 <= b < 256
  type Nibble = n: int | 0 <= n < 16

  // ---- hexadecimal digits ----

  /** char::to_digit(16) on an ASCII byte. */
  function ToDigit(b: Byte): (r: Option<Nibble>)
    ensures r.Some? <==> '0' as int <= b <= '9' as int || 'a' as int <= b <= 'f' as int || 'A' as int <= b <= 'F' as int
  {
    if '0' as int <= b <= '9' as int then Some(b - '0' as int)
    else if 'a' as int <= b <= 'f' as int then Some(b - 'a' as int + 10)
    else if 'A' as int <= b <= 'F' as int then Some(b - 'A' as int + 10)
    else None
  }

  function LowerDigit(n: Nibble): (b: Byte)
    ensures ToDigit(b) == Some(n)
  {
    if n < 10 then '0' as int + n else 'a' as int + n - 10
  }

  const LOWER_DIGITS := "0123456789abcdef"
  const UPPER_DIGITS := "0123456789ABCDEF"

  /** A byte is the digit `n` if it is the character there in either row of hexadecimal digits, and no digit else. */
  lemma DigitsAreHexadecimal(b: Byte, n: Nibble)
    ensures ToDigit(b) == Some(n) <==> b == LOWER_DIGITS[n] as int || b == UPPER_DIGITS[n] as int
    ensures LowerDigit(n) == LOWER_DIGITS[n] as int
  {}

  const PERCENT: Byte := '%' as int
  const HYPHEN: Byte := '-' as int

  // ---- percent-decoding a whole segment (section 2.1 of RFC 3986) ----

  function Decoded(raw: seq<Byte>): (r: Option<seq<Byte>>)
    decreases |raw|
  {
    if raw == [] then Some([])
    else if raw[0] != PERCENT then
      var rest := Decoded(raw[1..]);
      if rest.None? then None else Some([raw[0]] + rest.value)
    else if |raw| < 3 || ToDigit(raw[1]).None? || ToDigit(raw[2]).None? then None
    else
      var rest := Decoded(raw[3..]);
      if rest.None? then None else Some([ToDigit(raw[1]).value * 16 + ToDigit(raw[2]).value] + rest.value)
  }

  // ---- the hyphenated text of a UUID (section 4 of RFC 9562) ----

  /** A UUID as its 32 hexadecimal digits, most significant first. */
  type Uuid = u: seq<Nibble> | |u| == 32 witness seq(32, _ => 0)

  predicate IsHyphen(i: int) {
    i == 8 || i == 13 || i == 18 || i == 23
  }

  /** The digit of the UUID that position `i` of the 36-byte text shows. */
  function DigitIndex(i: int): int {
    if i < 8 then i else if i < 13 then i - 1 else if i < 18 then i - 2 else if i < 23 then i - 3 else i - 4
  }

  /** The position that shows digit `d`. */
  function Position(d: int): int {
    if d < 8 then d else if d < 12 then d + 1 else if d < 16 then d + 2 else if d < 20 then d + 3 else d + 4
  }

  /** `text` is the hyphenated form of `u`, each digit in either case. */
  predicate Spells(text: seq<Byte>, u: Uuid) {
    && |text| == 36
    && forall i :: 0 <= i < 36 ==>
         if IsHyphen(i) then text[i] == HYPHEN else ToDigit(text[i]) == Some(u[DigitIndex(i)])
  }

  /** identifier: 36 bytes, hyphens in place, then Uuid::parse_str. */
  function Identifier(text: seq<Byte>): (r: Option<Uuid>)
  {
    if |text| != 36 || !(forall i :: 0 <= i < 36 && IsHyphen(i) ==> text[i] == HYPHEN) then None
    else if forall i :: 0 <= i < 36 && !IsHyphen(i) ==> ToDigit(text[i]).Some? then
      Some(seq(32, d requires 0 <= d < 32 => ToDigit(text[Position(d)]).value))
    else None
  }

  lemma IdentifierReads(text: seq<Byte>, u: Uuid)
    ensures Identifier(text) == Some(u) <==> Spells(text, u)
  {
    assert forall d :: 0 <= d < 32 ==> 0 <= Position(d) < 36 && !IsHyphen(Position(d)) && DigitIndex(Position(d)) == d;
    assert forall i :: 0 <= i < 36 && !IsHyphen(i) ==> 0 <= DigitIndex(i) < 32 && Position(DigitIndex(i)) == i;
    if Spells(text, u) {
      var r := Identifier(text);
      assert r.Some?;
      forall d | 0 <= d < 32 ensures r.value[d] == u[d] { assert !IsHyphen(Position(d)); }
      assert r.value == u;
    }
    if Identifier(text) == Some(u) {
      forall i | 0 <= i < 36 && !IsHyphen(i) ensures ToDigit(text[i]) == Some(u[DigitIndex(i)]) {}
    }
  }

  predicate Digits(part: seq<Byte>, digits: seq<Nibble>) {
    |part| == |digits| && forall i :: 0 <= i < |part| ==> ToDigit(part[i]) == Some(digits[i])
  }

  lemma GroupSpelled(text: seq<Byte>, u: Uuid, from: nat, d: nat, n: nat)
    requires |text| == 36 && from + n <= 36 && d + n <= 32
    requires forall i :: from <= i < from + n ==> DigitIndex(i) == i - from + d
    ensures Digits(text[from..from + n], u[d..d + n])
            <==> forall i :: from <= i < from + n ==> ToDigit(text[i]) == Some(u[DigitIndex(i)])
  {
    var part, digits := text[from..from + n], u[d..d + n];
    if Digits(part, digits) {
      forall i | from <= i < from + n ensures ToDigit(text[i]) == Some(u[DigitIndex(i)]) {
        assert part[i - from] == text[i] && digits[i - from] == u[DigitIndex(i)];
      }
    }
    if forall i :: from <= i < from + n ==> ToDigit(text[i]) == Some(u[DigitIndex(i)]) {
      forall k | 0 <= k < n ensures ToDigit(part[k]) == Some(digits[k]) {
        assert part[k] == text[from + k] && DigitIndex(from + k) == k + d;
      }
    }
  }

  /** The digits are in groups of 8, 4, 4, 4 and 12, with a hyphen between them. */
  lemma SpelledInGroups(text: seq<Byte>, u: Uuid)
    ensures Spells(text, u) <==>
            && |text| == 36
            && Digits(text[0..8], u[0..8]) && text[8] == '-' as int
            && Digits(text[9..13], u[8..12]) && text[13] == '-' as int
            && Digits(text[14..18], u[12..16]) && text[18] == '-' as int
            && Digits(text[19..23], u[16..20]) && text[23] == '-' as int
            && Digits(text[24..36], u[20..32])
  {
    if |text| == 36 {
      GroupSpelled(text, u, 0, 0, 8);
      GroupSpelled(text, u, 9, 8, 4);
      GroupSpelled(text, u, 14, 12, 4);
      GroupSpelled(text, u, 19, 16, 4);
      GroupSpelled(text, u, 24, 20, 12);
    }
  }

  // ---- reading a path segment ----

  /** Decode the whole segment, then check it. */
  function ReadWhole(raw: seq<Byte>): Option<Uuid> {
    var decoded := Decoded(raw);
    if decoded.None? then None else Identifier(decoded.value)
  }

  function After(prefix: seq<Byte>, rest: Option<seq<Byte>>): Option<seq<Byte>> {
    if rest.None? then None else Some(prefix + rest.value)
  }

  lemma AfterOne(had: seq<Byte>, b: Byte, rest: Option<seq<Byte>>)
    ensures After(had, After([b], rest)) == After(had + [b], rest)
  {
    if rest.Some? { assert had + ([b] + rest.value) == (had + [b]) + rest.value; }
  }

  lemma AfterNone(rest: Option<seq<Byte>>)
    ensures After([], rest) == rest
  {
    if rest.Some? { assert [] + rest.value == rest.value; }
  }

  lemma TooLong(had: seq<Byte>, rest: Option<seq<Byte>>)
    requires |had| > 36 && After(had, rest).Some?
    ensures Identifier(After(had, rest).value).None?
  {}

  /** path_identifier's loop, which stops at the 37th decoded byte. */
  method PathIdentifier(raw: seq<Byte>) returns (r: Option<Uuid>)
    ensures r == ReadWhole(raw)
  {
    var next, decoded: seq<Byte> := 0, [];
    assert raw[0..] == raw;
    AfterNone(Decoded(raw));
    while next < |raw|
      invariant next <= |raw| && |decoded| <= 36
      invariant Decoded(raw) == After(decoded, Decoded(raw[next..]))
    {
      var b := raw[next];
      if b == PERCENT {
        if next + 1 == |raw| || ToDigit(raw[next + 1]).None? { return None; }
        if next + 2 == |raw| || ToDigit(raw[next + 2]).None? { return None; }
        b := ToDigit(raw[next + 1]).value * 16 + ToDigit(raw[next + 2]).value;
        assert raw[next..][3..] == raw[next + 3..];
        next := next + 3;
      } else {
        assert raw[next..][1..] == raw[next + 1..];
        next := next + 1;
      }
      AfterOne(decoded, b, Decoded(raw[next..]));
      decoded := decoded + [b];
      if |decoded| > 36 {
        if Decoded(raw).Some? { TooLong(decoded, Decoded(raw[next..])); }
        return None;
      }
    }
    assert decoded + [] == decoded;
    r := Identifier(decoded);
  }

  // ---- every spelling of a UUID ----

  /** `raw` writes `text` byte for byte, each either as itself or as a percent-encoded pair of digits. */
  predicate Encodes(raw: seq<Byte>, text: seq<Byte>)
    decreases |text|
  {
    if text == [] then raw == []
    else
      || (raw != [] && raw[0] == text[0] && raw[0] != PERCENT && Encodes(raw[1..], text[1..]))
      || (|raw| >= 3 && raw[0] == PERCENT && ToDigit(raw[1]).Some? && ToDigit(raw[2]).Some?
          && text[0] == ToDigit(raw[1]).value * 16 + ToDigit(raw[2]).value && Encodes(raw[3..], text[1..]))
  }

  lemma {:induction false} DecodesWhatItEncodes(raw: seq<Byte>, text: seq<Byte>)
    ensures Decoded(raw) == Some(text) <==> Encodes(raw, text)
    decreases |text|
  {
    if text != [] && raw != [] {
      assert text == [text[0]] + text[1..];
      if raw[0] != PERCENT { DecodesWhatItEncodes(raw[1..], text[1..]); }
      else if |raw| >= 3 { DecodesWhatItEncodes(raw[3..], text[1..]); }
    }
  }

  /** A segment reads as a UUID exactly when it writes that UUID's hyphenated text, in any mix of letter case and
      percent-encoding; every other segment is refused. */
  lemma SegmentReads(raw: seq<Byte>, u: Uuid)
    ensures ReadWhole(raw) == Some(u) <==> exists text :: Encodes(raw, text) && Spells(text, u)
  {
    if ReadWhole(raw) == Some(u) {
      var text := Decoded(raw).value;
      DecodesWhatItEncodes(raw, text);
      IdentifierReads(text, u);
    }
    if text :| Encodes(raw, text) && Spells(text, u) {
      DecodesWhatItEncodes(raw, text);
      IdentifierReads(text, u);
    }
  }

  // ---- lookup keys ----

  type Digest = d: seq<Byte> | |d| == 32 witness seq(32, _ => 0)

  /** TokenHash::from_bytes: two lowercase digits a byte, the high one first. */
  function FromBytes(bytes: Digest): (key: seq<Byte>)
    ensures |key| == 64
  {
    seq(64, i requires 0 <= i < 64 => LowerDigit(if i % 2 == 0 then bytes[i / 2] / 16 else bytes[i / 2] % 16))
  }

  predicate IsLowerDigit(b: Byte) {
    '0' as int <= b <= '9' as int || 'a' as int <= b <= 'f' as int
  }

  /** TokenHash::from_hex keeps an accepted key unchanged. */
  function FromHex(value: seq<Byte>): Option<seq<Byte>> {
    if |value| == 64 && forall b :: b in value ==> IsLowerDigit(b) then Some(value) else None
  }

  lemma DigitOfLower(b: Byte)
    requires IsLowerDigit(b)
    ensures ToDigit(b).Some? && LowerDigit(ToDigit(b).value) == b
  {}

  lemma DigitsOf(bytes: Digest, k: int)
    requires 0 <= k < 32
    ensures ToDigit(FromBytes(bytes)[2 * k]) == Some(bytes[k] / 16)
    ensures ToDigit(FromBytes(bytes)[2 * k + 1]) == Some(bytes[k] % 16)
  {
    assert (2 * k) / 2 == k && (2 * k + 1) / 2 == k;
  }

  /** The digest an accepted key encodes. */
  function ToBytes(value: seq<Byte>): (bytes: Digest)
    requires |value| == 64 && forall i :: 0 <= i < 64 ==> ToDigit(value[i]).Some?
  {
    seq(32, k requires 0 <= k < 32 => ToDigit(value[2 * k]).value * 16 + ToDigit(value[2 * k + 1]).value)
  }

  lemma EncodesBack(value: seq<Byte>, i: int)
    requires |value| == 64 && (forall k :: 0 <= k < 64 ==> ToDigit(value[k]).Some?) && 0 <= i < 64
    requires IsLowerDigit(value[i])
    ensures FromBytes(ToBytes(value))[i] == value[i]
  {
    var k := i / 2;
    assert i == 2 * k + i % 2;
    assert ToBytes(value)[k] == ToDigit(value[2 * k]).value * 16 + ToDigit(value[2 * k + 1]).value;
    DigitOfLower(value[i]);
  }

  /** from_bytes reaches exactly the strings from_hex accepts, and from_hex keeps them unchanged. */
  lemma KeysAreEncodings(value: seq<Byte>)
    ensures FromHex(value) == Some(value) <==> exists bytes: Digest :: FromBytes(bytes) == value
    ensures FromHex(value).Some? ==> FromHex(value) == Some(value)
  {
    if FromHex(value).Some? {
      assert forall i :: 0 <= i < 64 ==> value[i] in value;
      forall i | 0 <= i < 64 ensures FromBytes(ToBytes(value))[i] == value[i] { EncodesBack(value, i); }
      assert FromBytes(ToBytes(value)) == value;
    }
  }

  /** A key spells each byte in two lowercase digits, the high one first. */
  lemma KeysSpellBytes(bytes: Digest, k: int)
    requires 0 <= k < 32
    ensures FromBytes(bytes)[2 * k] == LOWER_DIGITS[bytes[k] / 16] as int
    ensures FromBytes(bytes)[2 * k + 1] == LOWER_DIGITS[bytes[k] % 16] as int
  {
    assert (2 * k) / 2 == k && (2 * k + 1) / 2 == k;
    DigitsAreHexadecimal(0, bytes[k] / 16);
    DigitsAreHexadecimal(0, bytes[k] % 16);
  }

  /** Distinct digests have distinct keys. */
  lemma KeysAreDistinct(a: Digest, b: Digest)
    requires FromBytes(a) == FromBytes(b)
    ensures a == b
  {
    forall k | 0 <= k < 32 ensures a[k] == b[k] {
      DigitsOf(a, k);
      DigitsOf(b, k);
    }
  }
}
