/** The `crypto.randomUUID` polyfill: a version-4 UUID from 16 random bytes, with the
    version and variant bits set as section 4.4 of RFC 4122 asks (bit layout in sections
    4.1.1 and 4.1.3), written as 8-4-4-4-12 lower-case hex groups; and the template
    fallback when no byte source exists. The random bytes and `Math.random` values are
    parameters. */
module UuidPolyfill {
  import opened Wrappers

  predicate IsLowerHex(c: char) {
    '0' <= c <= '9' || 'a' <= c <= 'f'
  }

  /** One hex digit, lower-case, as `toString(16)` writes it. */
  function HexDigit(n: int): (c: char)
    requires 0 <= n < 16
    ensures IsLowerHex(c)
  {
    if n < 10 then ('0' as int + n) as char else ('a' as int + n - 10) as char
  }

  function HexValue(c: char): (n: int)
    requires IsLowerHex(c)
    ensures 0 <= n < 16
  {
    if c <= '9' then c as int - '0' as int else c as int - 'a' as int + 10
  }

  lemma HexDigitValue(n: int)
    requires 0 <= n < 16
    ensures HexValue(HexDigit(n)) == n
  {
  }

  /** `n.toString(16)` for a byte value: no leading zero. */
  function ToString16(n: int): string
    requires 0 <= n < 256
  {
    if n < 16 then [HexDigit(n)] else [HexDigit(n / 16), HexDigit(n % 16)]
  }

  /** `padStart(2, '0')`. */
  function PadStart2(s: string): string {
    if |s| < 2 then seq(2 - |s|, _ => '0') + s else s
  }

  function ByteHex(b: bv8): string {
    PadStart2(ToString16(b as int))
  }

  /** Each byte becomes exactly two hex digits, high nibble first, zero-padded. */
  lemma ByteHexDigits(b: bv8)
    ensures ByteHex(b) == [HexDigit(b as int / 16), HexDigit(b as int % 16)]
  {
    var n := b as int;
    if n < 16 {
      assert ToString16(n) == [HexDigit(n)];
      assert HexDigit(n / 16) == '0';
    }
  }

  /** The digit at position `k` of the hex text of `bytes`: the high nibble of byte `k / 2`
      at even `k`, its low nibble at odd `k`. */
  function DigitAt(bytes: seq<bv8>, k: int): char
    requires 0 <= k < 2 * |bytes|
  {
    var b := bytes[k / 2] as int;
    if k % 2 == 0 then HexDigit(b / 16) else HexDigit(b % 16)
  }

  /** `Array.from(bytes, byteHex).join('')`. */
  function HexOf(bytes: seq<bv8>): (h: string)
    ensures |h| == 2 * |bytes|
    ensures forall k :: 0 <= k < |h| ==> h[k] == DigitAt(bytes, k) && IsLowerHex(h[k])
  {
    if bytes == [] then []
    else
      var rest := HexOf(bytes[1..]);
      ByteHexDigits(bytes[0]);
      var h := ByteHex(bytes[0]) + rest;
      assert forall k :: 2 <= k < |h| ==> h[k] == rest[k - 2] && DigitAt(bytes[1..], k - 2) == DigitAt(bytes, k);
      h
  }

  /** The 32 hex digits cut into groups of 8, 4, 4, 4 and 12 joined by '-'. */
  function Dashed(hex: string): string
    requires |hex| == 32
  {
    hex[0..8] + "-" + hex[8..12] + "-" + hex[12..16] + "-" + hex[16..20] + "-" + hex[20..32]
  }

  /** The bytes after the version and variant are set: byte 6 gets high nibble 4 (version
      4), byte 8 gets top bits 10 (the RFC 4122 variant). */
  function Masked(bytes: seq<bv8>): seq<bv8>
    requires |bytes| == 16
  {
    bytes[6 := (bytes[6] & 0x0f) | 0x40][8 := (bytes[8] & 0x3f) | 0x80]
  }

  function FormatUuid(bytes: seq<bv8>): string
    requires |bytes| == 16
  {
    Dashed(HexOf(bytes))
  }

  /** The shape every UUID the polyfill makes has: 36 characters, '-' at 8, 13, 18 and 23,
      lower-case hex digits elsewhere, '4' at 14 and one of 8, 9, a, b at 19. */
  predicate UuidV4Shape(id: string) {
    && |id| == 36
    && id[8] == '-' && id[13] == '-' && id[18] == '-' && id[23] == '-'
    && (forall i :: 0 <= i < 36 && i != 8 && i != 13 && i != 18 && i != 23 ==> IsLowerHex(id[i]))
    && id[14] == '4'
    && id[19] in {'8', '9', 'a', 'b'}
  }

  /** Setting the version and variant keeps the other 122 random bits. */
  lemma MaskedKeepsRandomBits(bytes: seq<bv8>)
    requires |bytes| == 16
    ensures forall i :: 0 <= i < 16 && i != 6 && i != 8 ==> Masked(bytes)[i] == bytes[i]
    ensures Masked(bytes)[6] & 0x0f == bytes[6] & 0x0f && Masked(bytes)[6] >> 4 == 4
    ensures Masked(bytes)[8] & 0x3f == bytes[8] & 0x3f && Masked(bytes)[8] >> 6 == 2
  {
  }

  lemma HighNibbles(b6: bv8, b8: bv8)
    ensures ((b6 & 0x0f) | 0x40) as int / 16 == 4
    ensures 8 <= ((b8 & 0x3f) | 0x80) as int / 16 <= 11
  {
  }

  /** A formatted UUID has the version-4 shape. */
  lemma FormatUuidShape(bytes: seq<bv8>)
    requires |bytes| == 16
    ensures UuidV4Shape(FormatUuid(Masked(bytes)))
  {
    var m := Masked(bytes);
    var hex := HexOf(m);
    HighNibbles(bytes[6], bytes[8]);
    assert hex[12] == HexDigit(m[6] as int / 16);
    assert hex[16] == HexDigit(m[8] as int / 16);
    DashedShape(hex);
  }

  /** 32 lower-case hex digits with '4' at 12 and a variant digit at 16 dash into the
      version-4 shape. */
  lemma DashedShape(hex: string)
    requires |hex| == 32 && forall k :: 0 <= k < 32 ==> IsLowerHex(hex[k])
    requires hex[12] == '4' && hex[16] in {'8', '9', 'a', 'b'}
    ensures UuidV4Shape(Dashed(hex))
  {
    DashedLayout(hex);
  }

  /** Where each character of the dashed text comes from. */
  lemma DashedLayout(hex: string)
    requires |hex| == 32
    ensures |Dashed(hex)| == 36
    ensures Dashed(hex)[8] == '-' && Dashed(hex)[13] == '-' && Dashed(hex)[18] == '-' && Dashed(hex)[23] == '-'
    ensures forall i :: 0 <= i < 8 ==> Dashed(hex)[i] == hex[i]
    ensures forall i :: 9 <= i < 13 ==> Dashed(hex)[i] == hex[i - 1]
    ensures forall i :: 14 <= i < 18 ==> Dashed(hex)[i] == hex[i - 2]
    ensures forall i :: 19 <= i < 23 ==> Dashed(hex)[i] == hex[i - 3]
    ensures forall i :: 24 <= i < 36 ==> Dashed(hex)[i] == hex[i - 4]
  {
  }

  /** The dashes removed. */
  function Undashed(id: string): string
    requires |id| == 36
  {
    id[0..8] + id[9..13] + id[14..18] + id[19..23] + id[24..36]
  }

  /** Two hex digits per byte, read back. */
  function ParseHex(h: string): (bytes: seq<bv8>)
    requires |h| % 2 == 0 && forall i :: 0 <= i < |h| ==> IsLowerHex(h[i])
    ensures |bytes| * 2 == |h|
  {
    if h == [] then []
    else [(HexValue(h[0]) * 16 + HexValue(h[1])) as bv8] + ParseHex(h[2..])
  }

  /** Reading the hex digits back gives the bytes they were written from. */
  lemma {:induction false} ParseHexOf(bytes: seq<bv8>)
    ensures ParseHex(HexOf(bytes)) == bytes
  {
    var h := HexOf(bytes);
    if bytes != [] {
      ParseHexOf(bytes[1..]);
      ByteHexDigits(bytes[0]);
      assert h == ByteHex(bytes[0]) + HexOf(bytes[1..]);
      assert h[2..] == HexOf(bytes[1..]);
      assert h[0] == DigitAt(bytes, 0) && h[1] == DigitAt(bytes, 1);
      ByteRoundTrip(bytes[0] as int);
      assert (bytes[0] as int) as bv8 == bytes[0];
    }
  }

  /** The two digits of a byte value read back give the value. */
  lemma ByteRoundTrip(n: int)
    requires 0 <= n < 256
    ensures HexValue(HexDigit(n / 16)) * 16 + HexValue(HexDigit(n % 16)) == n
  {
    HexDigitValue(n / 16);
    HexDigitValue(n % 16);
  }

  /** Removing the dashes from the dashed text gives back the hex digits. */
  lemma UndashedDashed(hex: string)
    requires |hex| == 32
    ensures Undashed(Dashed(hex)) == hex
  {
    var d := Dashed(hex);
    DashedLayout(hex);
    assert d[0..8] == hex[0..8];
    assert d[9..13] == hex[8..12];
    assert d[14..18] == hex[12..16];
    assert d[19..23] == hex[16..20];
    assert d[24..36] == hex[20..32];
    assert hex == hex[0..8] + hex[8..12] + hex[12..16] + hex[16..20] + hex[20..32];
  }

  /** A UUID text determines its bytes: removing the dashes and reading the hex digits
      gives back the masked bytes it was made from. */
  lemma FormatUuidRoundTrip(bytes: seq<bv8>)
    requires |bytes| == 16
    ensures Undashed(FormatUuid(Masked(bytes))) == HexOf(Masked(bytes))
    ensures ParseHex(Undashed(FormatUuid(Masked(bytes)))) == Masked(bytes)
  {
    var hex := HexOf(Masked(bytes));
    UndashedDashed(hex);
    ParseHexOf(Masked(bytes));
  }

  /** `bytes[6]` and `bytes[8]` masked in place. */
  method SetVersionAndVariant(bytes: array<bv8>)
    requires bytes.Length == 16
    modifies bytes
    ensures bytes[..] == Masked(old(bytes[..]))
  {
    bytes[6] := (bytes[6] & 0x0f) | 0x40;
    bytes[8] := (bytes[8] & 0x3f) | 0x80;
  }

  /** The byte path: a fresh 16-byte buffer filled with `random`, masked, formatted. */
  method RandomUuidFromBytes(random: seq<bv8>) returns (id: string)
    requires |random| == 16
    ensures id == FormatUuid(Masked(random))
    ensures UuidV4Shape(id)
  {
    var bytes := new bv8[16](i requires 0 <= i < 16 => random[i]);
    assert bytes[..] == random;
    SetVersionAndVariant(bytes);
    id := FormatUuid(bytes[..]);
    FormatUuidShape(random);
  }

  // ---------------------------------------------------------------------------------------
  // The template fallback

  const Template: string := "xxxxxxxx-xxxx-4xxx-yxxx-xxxxxxxxxxxx"

  /** `(Math.random() * 16) | 0`: truncation, which is the floor for a non-negative value. */
  function Nibble(r: real): (n: int)
    requires 0.0 <= r < 1.0
    ensures 0 <= n < 16
  {
    (r * 16.0).Floor
  }

  predicate InUnitInterval(rs: seq<real>) {
    forall i :: 0 <= i < |rs| ==> 0.0 <= rs[i] < 1.0
  }

  /** The template with each 'x' replaced by a random digit and each 'y' by a random digit
      with its top two bits set to 10; other characters are kept. `rs` holds the values
      `Math.random` returns, used in order, one per replaced character. */
  function Fill(t: string, rs: seq<real>): (r: string)
    requires InUnitInterval(rs) && |rs| >= |t|
    ensures |r| == |t|
    ensures forall i :: 0 <= i < |t| && t[i] != 'x' && t[i] != 'y' ==> r[i] == t[i]
    ensures forall i :: 0 <= i < |t| && t[i] == 'x' ==> IsLowerHex(r[i])
    ensures forall i :: 0 <= i < |t| && t[i] == 'y' ==> r[i] in {'8', '9', 'a', 'b'}
  {
    if t == [] then []
    else
      var rest := if t[0] == 'x' || t[0] == 'y' then Fill(t[1..], rs[1..]) else Fill(t[1..], rs);
      var c := if t[0] == 'x' then HexDigit(Nibble(rs[0]))
               else if t[0] == 'y' then HexDigit(Nibble(rs[0]) % 4 + 8)
               else t[0];
      assert forall i :: 1 <= i < |t| ==> t[i] == t[1..][i - 1] && ([c] + rest)[i] == rest[i - 1];
      [c] + rest
  }

  /** Where the template has its dashes, its fixed '4', its 'y' and its 'x's. */
  predicate TemplateLayout(t: string) {
    && |t| == 36
    && t[8] == '-' && t[13] == '-' && t[18] == '-' && t[23] == '-'
    && t[14] == '4' && t[19] == 'y'
    && forall i :: 0 <= i < 36 && i != 8 && i != 13 && i != 18 && i != 23 && i != 14 && i != 19 ==> t[i] == 'x'
  }

  lemma TemplateHasLayout()
    ensures TemplateLayout(Template)
  {
  }

  /** Filling a template with that layout gives the version-4 shape. */
  lemma FillShape(t: string, rs: seq<real>)
    requires TemplateLayout(t) && InUnitInterval(rs) && |rs| >= |t|
    ensures UuidV4Shape(Fill(t, rs))
  {
  }

  /** The fallback has the same shape as the byte path. */
  lemma TemplateShape(rs: seq<real>)
    requires InUnitInterval(rs) && |rs| >= |Template|
    ensures UuidV4Shape(Fill(Template, rs))
  {
    TemplateHasLayout();
    FillShape(Template, rs);
  }

  // ---------------------------------------------------------------------------------------
  // Installation

  datatype UuidImpl = NativeUuid | PolyfillUuid

  /** What of `globalThis.crypto` matters here. */
  datatype Crypto = Crypto(randomUUID: Option<UuidImpl>, hasGetRandomValues: bool)

  class GlobalScope {
    var crypto: Option<Crypto>

    constructor(existing: Option<Crypto>)
      ensures crypto == existing
    {
      crypto := existing;
    }

    /** The module's top level: an empty `crypto` object is created when there is none, and
        the polyfill is installed only where `randomUUID` is missing. */
    method Install()
      modifies this
      ensures crypto.Some? && crypto.value.randomUUID.Some?
      ensures old(crypto).None? ==> crypto == Some(Crypto(Some(PolyfillUuid), false))
      ensures old(crypto).Some? && old(crypto).value.randomUUID.Some? ==> crypto == old(crypto)
      ensures old(crypto).Some? && old(crypto).value.randomUUID.None? ==>
        crypto == Some(old(crypto).value.(randomUUID := Some(PolyfillUuid)))
    {
      if crypto.None? {
        crypto := Some(Crypto(None, false));
      }
      if crypto.value.randomUUID.None? {
        crypto := Some(crypto.value.(randomUUID := Some(PolyfillUuid)));
      }
    }

    /** The installed function: the byte path when `getRandomValues` exists at call time,
        the template otherwise. Either way the result has the version-4 shape. */
    method PolyfillRandomUuid(random: seq<bv8>, rs: seq<real>) returns (id: string)
      requires crypto.Some? && |random| == 16 && InUnitInterval(rs) && |rs| >= |Template|
      ensures crypto.value.hasGetRandomValues ==> id == FormatUuid(Masked(random))
      ensures !crypto.value.hasGetRandomValues ==> id == Fill(Template, rs)
      ensures UuidV4Shape(id)
    {
      if crypto.value.hasGetRandomValues {
        id := RandomUuidFromBytes(random);
      } else {
        id := Fill(Template, rs);
        TemplateShape(rs);
      }
    }
  }
}
