/**
 * UUIDs as the SDK uses them: `str(u)` gives the canonical lower-case,
 * hyphenated text (also how `ucjson.serializer` writes a UUID), and
 * `uuid.UUID(text)` parses text back.
 */
module Uuids {
  import opened Wrappers

  type Nibble = d: int | 0 <= d < 16

  datatype UuidDigits = UuidDigits(nibbles: seq<Nibble>)

  /** A UUID is its 128 bits, kept as 32 hexadecimal digits, most significant first. */
  type Uuid = u: UuidDigits | |u.nibbles| == 32
    witness UuidDigits(seq(32, i => 0))

  /** The lower-case hexadecimal digit `str(u)` writes for `d`. */
  function HexChar(d: Nibble): (c: char)
    ensures IsLowerHexChar(c)
  {
    if d < 10 then ('0' as int + d) as char else ('a' as int + d - 10) as char
  }

  predicate IsLowerHexChar(c: char) {
    '0' <= c <= '9' || 'a' <= c <= 'f'
  }

  predicate IsHexChar(c: char) {
    '0' <= c <= '9' || 'a' <= c <= 'f' || 'A' <= c <= 'F'
  }

  /** The value of a hexadecimal digit of either case, as `int(text, 16)` reads it. */
  function HexValue(c: char): Nibble
    requires IsHexChar(c)
  {
    if '0' <= c <= '9' then c as int - '0' as int
    else if 'a' <= c <= 'f' then c as int - 'a' as int + 10
    else c as int - 'A' as int + 10
  }

  function HexText(ds: seq<Nibble>): string {
    seq(|ds|, i requires 0 <= i < |ds| => HexChar(ds[i]))
  }

  /** `str(u)`: 8-4-4-4-12 lower-case hexadecimal digits separated by hyphens. */
  function ToString(u: Uuid): (r: string)
    ensures |r| == 36
    ensures r[8] == '-' && r[13] == '-' && r[18] == '-' && r[23] == '-'
    ensures forall i :: 0 <= i < 36 && i !in {8, 13, 18, 23} ==> IsLowerHexChar(r[i])
  {
    var n := u.nibbles;
    HexText(n[..8]) + "-" + HexText(n[8..12]) + "-" + HexText(n[12..16]) + "-"
      + HexText(n[16..20]) + "-" + HexText(n[20..])
  }

  // ----- uuid.UUID(hex): drop "urn:" and "uuid:", strip braces, drop hyphens, read 32 digits -----

  /** `s.replace(pat, '')`: occurrences of `pat` removed, scanning left to right. */
  function RemoveAll(s: string, pat: string): string
    requires pat != []
    decreases |s|
  {
    if |s| < |pat| then s
    else if s[..|pat|] == pat then RemoveAll(s[|pat|..], pat)
    else [s[0]] + RemoveAll(s[1..], pat)
  }

  function StripLeadingBraces(s: string): string {
    if s != [] && s[0] in "{}" then StripLeadingBraces(s[1..]) else s
  }

  function StripTrailingBraces(s: string): string {
    if s != [] && s[|s| - 1] in "{}" then StripTrailingBraces(s[..|s| - 1]) else s
  }

  /** `s.strip('{}')`. */
  function StripBraces(s: string): string {
    StripTrailingBraces(StripLeadingBraces(s))
  }

  /** `s.replace('-', '')`. */
  function RemoveHyphens(s: string): string {
    if s == [] then [] else (if s[0] == '-' then [] else [s[0]]) + RemoveHyphens(s[1..])
  }

  /** The 32-digit text `uuid.UUID` reads the value from. */
  function HexPart(s: string): string {
    RemoveHyphens(StripBraces(RemoveAll(RemoveAll(s, "urn:"), "uuid:")))
  }

  /** `uuid.UUID(s)`: None where Python raises ValueError. */
  function Parse(s: string): (r: Option<Uuid>)
    ensures r.Some? <==> |HexPart(s)| == 32 && forall i :: 0 <= i < 32 ==> IsHexChar(HexPart(s)[i])
    ensures r.Some? ==> forall i :: 0 <= i < 32 ==> r.value.nibbles[i] == HexValue(HexPart(s)[i])
  {
    var h := HexPart(s);
    if |h| == 32 && forall i :: 0 <= i < 32 ==> IsHexChar(h[i]) then
      Some(UuidDigits(seq(32, i requires 0 <= i < 32 => HexValue(h[i]))))
    else None
  }

  // ----- Round trip -----

  lemma {:induction false} RemoveAllAbsent(s: string, pat: string)
    requires pat != [] && pat[|pat| - 1] == ':'
    requires forall i :: 0 <= i < |s| ==> s[i] != ':'
    ensures RemoveAll(s, pat) == s
    decreases |s|
  {
    if |s| >= |pat| {
      assert s[..|pat|][|pat| - 1] == s[|pat| - 1];
      assert s[..|pat|] != pat;
      RemoveAllAbsent(s[1..], pat);
      assert [s[0]] + s[1..] == s;
    }
  }

  lemma {:induction false} RemoveHyphensAppend(a: string, b: string)
    ensures RemoveHyphens(a + b) == RemoveHyphens(a) + RemoveHyphens(b)
    decreases |a|
  {
    if a != [] {
      assert (a + b)[1..] == a[1..] + b;
      RemoveHyphensAppend(a[1..], b);
    } else {
      assert a + b == b;
    }
  }

  lemma {:induction false} RemoveHyphensOfHex(ds: seq<Nibble>)
    ensures RemoveHyphens(HexText(ds)) == HexText(ds)
    decreases |ds|
  {
    if ds != [] {
      assert HexText(ds)[1..] == HexText(ds[1..]);
      RemoveHyphensOfHex(ds[1..]);
    }
  }

  lemma HexTextAppend(a: seq<Nibble>, b: seq<Nibble>)
    ensures HexText(a + b) == HexText(a) + HexText(b)
  {
  }

  lemma RemoveHyphensJoin(a: string, b: string)
    ensures RemoveHyphens(a + "-" + b) == RemoveHyphens(a) + RemoveHyphens(b)
  {
    RemoveHyphensAppend(a + "-", b);
    RemoveHyphensAppend(a, "-");
  }

  /** Canonical text holds only hexadecimal digits and hyphens. */
  predicate DigitsAndHyphens(s: string) {
    forall i :: 0 <= i < |s| ==> s[i] == '-' || IsLowerHexChar(s[i])
  }

  lemma ToStringDigitsAndHyphens(u: Uuid)
    ensures DigitsAndHyphens(ToString(u))
  {
    var s := ToString(u);
    forall i | 0 <= i < |s| ensures s[i] == '-' || IsLowerHexChar(s[i]) {
      if i !in {8, 13, 18, 23} {
        assert IsLowerHexChar(s[i]);
      }
    }
  }

  /** Dropping the prefixes and braces leaves canonical text unchanged. */
  lemma StripToString(u: Uuid)
    ensures StripBraces(RemoveAll(RemoveAll(ToString(u), "urn:"), "uuid:")) == ToString(u)
  {
    var s := ToString(u);
    ToStringDigitsAndHyphens(u);
    assert forall i :: 0 <= i < |s| ==> s[i] != ':';
    RemoveAllAbsent(s, "urn:");
    RemoveAllAbsent(s, "uuid:");
    assert s[0] !in "{}" && s[35] !in "{}" by {
      assert IsLowerHexChar(s[0]) && IsLowerHexChar(s[35]);
    }
    assert StripLeadingBraces(s) == s;
  }

  lemma HyphensOfToString(u: Uuid)
    ensures RemoveHyphens(ToString(u)) == HexText(u.nibbles)
  {
    var n := u.nibbles;
    var p0, p1, p2, p3, p4 := HexText(n[..8]), HexText(n[8..12]), HexText(n[12..16]), HexText(n[16..20]), HexText(n[20..]);
    RemoveHyphensJoin(p0 + "-" + p1 + "-" + p2 + "-" + p3, p4);
    RemoveHyphensJoin(p0 + "-" + p1 + "-" + p2, p3);
    RemoveHyphensJoin(p0 + "-" + p1, p2);
    RemoveHyphensJoin(p0, p1);
    RemoveHyphensOfHex(n[..8]);
    RemoveHyphensOfHex(n[8..12]);
    RemoveHyphensOfHex(n[12..16]);
    RemoveHyphensOfHex(n[16..20]);
    RemoveHyphensOfHex(n[20..]);
    assert n == n[..8] + n[8..12] + n[12..16] + n[16..20] + n[20..];
    HexTextAppend(n[..8], n[8..12]);
    HexTextAppend(n[..8] + n[8..12], n[12..16]);
    HexTextAppend(n[..8] + n[8..12] + n[12..16], n[16..20]);
    HexTextAppend(n[..8] + n[8..12] + n[12..16] + n[16..20], n[20..]);
  }

  /** Parsing the text `str(u)` gives back `u`: the UUID-as-string convention loses nothing. */
  lemma ParseToString(u: Uuid)
    ensures Parse(ToString(u)) == Some(u)
  {
    StripToString(u);
    HyphensOfToString(u);
    var h := HexPart(ToString(u));
    assert h == HexText(u.nibbles);
    assert forall d: Nibble :: HexValue(HexChar(d)) == d;
    assert forall i :: 0 <= i < 32 ==> IsHexChar(h[i]) && HexValue(h[i]) == u.nibbles[i];
    assert Parse(ToString(u)).value.nibbles == u.nibbles;
  }

  /** Distinct UUIDs have distinct texts. */
  lemma ToStringInjective(u: Uuid, v: Uuid)
    requires ToString(u) == ToString(v)
    ensures u == v
  {
    ParseToString(u);
    ParseToString(v);
  }
}
