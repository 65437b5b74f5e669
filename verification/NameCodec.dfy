/** Tunnel names: the low half of an address and a port, in the base32 of section 6 of RFC 4648,
    as the one label in front of the API domain. */
module NameCodec {
  import opened Records
  import opened Text

  type Byte = x: int | 0 <= x < 256
  type Digit = x: int | 0 <= x < 32

  const SUBNET: seq<Byte> := [0xfd, 0xb0, 0x01, 0xad, 0x4d, 0x05, 0x81, 0x42]

  /** Four bytes or sixteen; the zero address has none. */
  datatype AddrPort = AddrPort(addr: seq<Byte>, port: int)

  // ---------------------------------------------------------------- base32

  /** The alphabet is A to Z, then 2 to 7. */
  function DigitChar(d: Digit): char {
    if d < 26 then ('A' as int + d) as char else ('2' as int + d - 26) as char
  }

  function CharDigit(c: char): Option<Digit> {
    if 'A' <= c <= 'Z' then Some(c as int - 'A' as int)
    else if '2' <= c <= '7' then Some(c as int - '2' as int + 26)
    else None
  }

  lemma DigitsAreNamedOnce(d: Digit, c: char)
    ensures CharDigit(c) == Some(d) <==> c == DigitChar(d)
  {
  }

  /** Digit by digit, the alphabet of the standard. */
  lemma AlphabetIs(d: Digit)
    ensures DigitChar(d) == "ABCDEFGHIJKLMNOPQRSTUVWXYZ234567"[d]
  {
    var alphabet := "ABCDEFGHIJKLMNOPQRSTUVWXYZ234567";
    if d < 26 {
      assert alphabet[d] == ('A' as int + d) as char;
    } else {
      assert alphabet[d] == ('2' as int + d - 26) as char;
    }
  }

  /** What is left of `x` above and below its lowest bits. */
  function High(x: int, m: int): int
    requires m > 0
  {
    x / m
  }

  function Low(x: int, m: int): int
    requires m > 0
  {
    x % m
  }

  /** Forty bits, as five bytes and as eight digits. */
  function ToDigits(b: seq<Byte>): (d: seq<Digit>)
    requires |b| == 5
    ensures |d| == 8
  {
    [High(b[0], 8), Low(b[0], 8) * 4 + High(b[1], 64), Low(High(b[1], 2), 32), Low(b[1], 2) * 16 + High(b[2], 16),
     Low(b[2], 16) * 2 + High(b[3], 128), Low(High(b[3], 4), 32), Low(b[3], 4) * 8 + High(b[4], 32), Low(b[4], 32)]
  }

  function ToBytes(d: seq<Digit>): (b: seq<Byte>)
    requires |d| == 8
    ensures |b| == 5
  {
    [d[0] as int * 8 + High(d[1], 4), Low(d[1], 4) * 64 + d[2] as int * 2 + High(d[3], 16),
      Low(d[3], 16) * 16 + High(d[4], 2),
     Low(d[4], 2) * 128 + d[5] as int * 4 + High(d[6], 8), Low(d[6], 8) * 32 + d[7] as int]
  }

  /** Gluing two digits together and taking them apart again. */
  lemma Glued(h: int, l: int, m: int)
    requires 0 <= l < m
    ensures High(h * m + l, m) == h && Low(h * m + l, m) == l
  {
    var x := h * m + l;
    var difference := x / m - h;
    assert difference * m == l - x % m;
    assert difference >= 1 ==> difference * m >= m;
    assert difference <= -1 ==> difference * m <= -m;
  }

  lemma Apart(x: Byte, m: int)
    requires m > 0
    ensures x == High(x, m) * m + Low(x, m) && 0 <= Low(x, m) < m && 0 <= High(x, m)
  {
  }

  lemma SmallHigh(x: Byte, d: Digit)
    ensures High(x, 8) < 32 && High(x, 16) < 16 && High(x, 32) < 8 && High(x, 64) < 4 && High(x, 128) < 2
    ensures 0 <= High(d, 2) < 16 && 0 <= High(d, 4) < 8 && 0 <= High(d, 8) < 4 && 0 <= High(d, 16) < 2
  {
  }

  /** The outer bits and the five bits in the middle of a byte. */
  lemma Middle(x: Byte)
    ensures x == High(x, 64) * 64 + Low(High(x, 2), 32) * 2 + Low(x, 2)
    ensures x == High(x, 128) * 128 + Low(High(x, 4), 32) * 4 + Low(x, 4)
    ensures 0 <= Low(High(x, 2), 32) < 32 && 0 <= Low(High(x, 4), 32) < 32
  {
    hide High, Low;
    MiddleAbove(x, 2, 64);
    MiddleAbove(x, 4, 128);
  }

  lemma MiddleAbove(x: Byte, m: int, n: int)
    requires (m == 2 && n == 64) || (m == 4 && n == 128)
    ensures x == High(x, n) * n + Low(High(x, m), 32) * m + Low(x, m) && 0 <= Low(High(x, m), 32) < 32
  {
    var y: int := x;
    if m == 2 {
      assert y == y / 2 * 2 + y % 2 && y / 2 == y / 2 / 32 * 32 + y / 2 % 32 && y / 2 / 32 == y / 64;
    } else {
      assert y == y / 4 * 4 + y % 4 && y / 4 == y / 4 / 32 * 32 + y / 4 % 32 && y / 4 / 32 == y / 128;
    }
  }

  lemma BytesToDigitsAndBack(b: seq<Byte>)
    requires |b| == 5
    ensures ToBytes(ToDigits(b)) == b
  {
    hide High, Low;
    SplitBytes(b);
    Glued(Low(b[0], 8), High(b[1], 64), 4);
    Glued(Low(b[1], 2), High(b[2], 16), 16);
    Glued(Low(b[2], 16), High(b[3], 128), 2);
    Glued(Low(b[3], 4), High(b[4], 32), 8);
  }

  lemma SplitBytes(b: seq<Byte>)
    requires |b| == 5
    ensures b[0] == High(b[0], 8) * 8 + Low(b[0], 8) && 0 <= Low(b[0], 8) < 8
    ensures b[1] == High(b[1], 64) * 64 + Low(High(b[1], 2), 32) * 2 + Low(b[1], 2) && 0 <= High(b[1], 64) < 4
    ensures b[2] == High(b[2], 16) * 16 + Low(b[2], 16) && 0 <= High(b[2], 16) < 16
    ensures b[3] == High(b[3], 128) * 128 + Low(High(b[3], 4), 32) * 4 + Low(b[3], 4) && 0 <= High(b[3], 128) < 2
    ensures b[4] == High(b[4], 32) * 32 + Low(b[4], 32) && 0 <= High(b[4], 32) < 8
  {
    hide High, Low;
    Apart(b[0], 8);
    Apart(b[1], 64);
    Apart(b[2], 16);
    Apart(b[3], 128);
    Apart(b[4], 32);
    Middle(b[1]);
    Middle(b[3]);
    forall i | 0 <= i < 5
      ensures High(b[i], 64) < 4 && High(b[i], 16) < 16 && High(b[i], 128) < 2 && High(b[i], 32) < 8 {
      SmallHigh(b[i], 0);
    }
  }

  lemma DigitsToBytesAndBack(d: seq<Digit>)
    requires |d| == 8
    ensures ToDigits(ToBytes(d)) == d
  {
    hide High, Low;
    SplitDigits(d);
    Glued(d[0], High(d[1], 4), 8);
    Glued(Low(d[1], 4), d[2] * 2 + High(d[3], 16), 64);
    Glued(Low(d[1], 4) * 32 + d[2], High(d[3], 16), 2);
    Glued(Low(d[1], 4), d[2], 32);
    Glued(Low(d[3], 16), High(d[4], 2), 16);
    Glued(Low(d[4], 2), d[5] * 4 + High(d[6], 8), 128);
    Glued(Low(d[4], 2) * 32 + d[5], High(d[6], 8), 4);
    Glued(Low(d[4], 2), d[5], 32);
    Glued(Low(d[6], 8), d[7], 32);
  }

  lemma SplitDigits(d: seq<Digit>)
    requires |d| == 8
    ensures d[1] == High(d[1], 4) * 4 + Low(d[1], 4) && 0 <= High(d[1], 4) < 8
    ensures d[3] == High(d[3], 16) * 16 + Low(d[3], 16) && 0 <= High(d[3], 16) < 2
    ensures d[4] == High(d[4], 2) * 2 + Low(d[4], 2) && 0 <= High(d[4], 2) < 16
    ensures d[6] == High(d[6], 8) * 8 + Low(d[6], 8) && 0 <= High(d[6], 8) < 4
  {
    hide High, Low;
    Apart(d[1], 4);
    Apart(d[3], 16);
    Apart(d[4], 2);
    Apart(d[6], 8);
    SmallHigh(0, d[1]);
    SmallHigh(0, d[3]);
    SmallHigh(0, d[4]);
    SmallHigh(0, d[6]);
  }

  /** The number that digits spell, most significant first. */
  function Number(digits: seq<int>, base: int): int {
    if |digits| == 0 then 0 else Number(digits[..|digits| - 1], base) * base + digits[|digits| - 1]
  }

  lemma NumberGrows(digits: seq<int>, last: int, base: int)
    ensures Number(digits + [last], base) == Number(digits, base) * base + last
  {
    assert (digits + [last])[..|digits|] == digits;
  }

  lemma {:induction false} NumberOfFive(b: seq<int>)
    requires |b| == 5
    ensures Number(b, 256) == (((b[0] * 256 + b[1]) * 256 + b[2]) * 256 + b[3]) * 256 + b[4]
  {
    assert b == [] + [b[0]] + [b[1]] + [b[2]] + [b[3]] + [b[4]];
    NumberGrows([], b[0], 256);
    NumberGrows([] + [b[0]], b[1], 256);
    NumberGrows([] + [b[0]] + [b[1]], b[2], 256);
    NumberGrows([] + [b[0]] + [b[1]] + [b[2]], b[3], 256);
    NumberGrows([] + [b[0]] + [b[1]] + [b[2]] + [b[3]], b[4], 256);
  }

  lemma {:induction false} NumberOfEight(d: seq<int>)
    requires |d| == 8
    ensures Number(d, 32) ==
      ((((((d[0] * 32 + d[1]) * 32 + d[2]) * 32 + d[3]) * 32 + d[4]) * 32 + d[5]) * 32 + d[6]) * 32 + d[7]
  {
    var half := [] + [d[0]] + [d[1]] + [d[2]] + [d[3]];
    assert d == half + [d[4]] + [d[5]] + [d[6]] + [d[7]];
    NumberGrows([], d[0], 32);
    NumberGrows([] + [d[0]], d[1], 32);
    NumberGrows([] + [d[0]] + [d[1]], d[2], 32);
    NumberGrows([] + [d[0]] + [d[1]] + [d[2]], d[3], 32);
    NumberGrows(half, d[4], 32);
    NumberGrows(half + [d[4]], d[5], 32);
    NumberGrows(half + [d[4]] + [d[5]], d[6], 32);
    NumberGrows(half + [d[4]] + [d[5]] + [d[6]], d[7], 32);
  }

  /** The eight digits spell the same forty-bit number as the five bytes. */
  lemma {:induction false} GroupIsOneNumber(b: seq<Byte>)
    requires |b| == 5
    ensures Number(ToDigits(b), 32) == Number(b, 256)
  {
    hide High, Low, Number;
    SplitBytes(b);
    NumberOfFive(b);
    NumberOfEight(ToDigits(b));
  }

  function GroupText(b: seq<Byte>): (t: string)
    requires |b| == 5
    ensures |t| == 8
  {
    var d := ToDigits(b);
    seq(8, i requires 0 <= i < 8 => DigitChar(d[i]))
  }

  function TextGroup(t: string): (b: Option<seq<Byte>>)
    requires |t| == 8
    ensures b.Some? ==> |b.value| == 5
  {
    if forall i :: 0 <= i < 8 ==> CharDigit(t[i]).Some?
    then Some(ToBytes(seq(8, i requires 0 <= i < 8 => CharDigit(t[i]).value)))
    else None
  }

  function Encode(b: seq<Byte>): (t: string)
    requires |b| % 5 == 0
    ensures |t| == |b| / 5 * 8
  {
    if |b| == 0 then "" else GroupText(b[..5]) + Encode(b[5..])
  }

  function Decode(t: string): (b: Option<seq<Byte>>)
    requires |t| % 8 == 0
    ensures b.Some? ==> |b.value| == |t| / 8 * 5
  {
    if |t| == 0 then Some([])
    else
      var head, rest := TextGroup(t[..8]), Decode(t[8..]);
      if head.Some? && rest.Some? then Some(head.value + rest.value) else None
  }

  lemma GroupRoundTrip(b: seq<Byte>, t: string)
    requires |b| == 5 && |t| == 8
    ensures TextGroup(t) == Some(b) <==> t == GroupText(b)
  {
    hide ToBytes, ToDigits, DigitChar, CharDigit;
    if t == GroupText(b) {
      var d := ToDigits(b);
      forall i | 0 <= i < 8 ensures CharDigit(t[i]) == Some(d[i]) {
        DigitsAreNamedOnce(d[i], t[i]);
      }
      assert seq(8, i requires 0 <= i < 8 => CharDigit(t[i]).value) == d;
      BytesToDigitsAndBack(b);
    }
    if TextGroup(t) == Some(b) {
      var d: seq<Digit> := seq(8, i requires 0 <= i < 8 => CharDigit(t[i]).value);
      DigitsToBytesAndBack(d);
      assert ToDigits(b) == d;
      forall i | 0 <= i < 8 ensures t[i] == GroupText(b)[i] {
        DigitsAreNamedOnce(d[i], t[i]);
      }
    }
  }

  /** Encoding and decoding are inverse on whole groups, in both directions. */
  lemma {:induction false} Base32RoundTrip(b: seq<Byte>, t: string)
    requires |b| % 5 == 0 && |t| % 8 == 0
    ensures Decode(t) == Some(b) <==> t == Encode(b)
    decreases |b|
  {
    if |b| > 0 && |t| > 0 {
      GroupRoundTrip(b[..5], t[..8]);
      Base32RoundTrip(b[5..], t[8..]);
      hide GroupText, TextGroup;
      assert b == b[..5] + b[5..] && t == t[..8] + t[8..];
      if t == Encode(b) {
        assert t[..8] == GroupText(b[..5]) && t[8..] == Encode(b[5..]);
      }
      if Decode(t) == Some(b) {
        assert b[..5] == TextGroup(t[..8]).value && b[5..] == Decode(t[8..]).value;
      }
    }
  }

  /** The digit that stands for a character, or -1. */
  function Worth(c: char): int {
    match CharDigit(c)
    case Some(d) => d
    case None => -1
  }

  function DigitsOf(t: string): (d: seq<int>)
    ensures |d| == |t|
  {
    seq(|t|, i requires 0 <= i < |t| => Worth(t[i]))
  }

  function Power(base: int, n: nat): int {
    if n == 0 then 1 else Power(base, n - 1) * base
  }

  lemma {:induction false} NumberAppends(a: seq<int>, b: seq<int>, base: int)
    ensures Number(a + b, base) == Number(a, base) * Power(base, |b|) + Number(b, base)
  {
    if |b| == 0 {
      assert a + b == a;
    } else {
      var n := |b| - 1;
      assert a + b == (a + b[..n]) + [b[n]];
      NumberGrows(a + b[..n], b[n], base);
      NumberAppends(a, b[..n], base);
      Distributes(Number(a, base), Power(base, n), base, Number(b[..n], base));
    }
  }

  lemma Distributes(x: int, y: int, base: int, z: int)
    ensures (x * y + z) * base == x * (y * base) + z * base
  {
  }

  lemma GroupDigits(b: seq<Byte>)
    requires |b| == 5
    ensures DigitsOf(GroupText(b)) == ToDigits(b)
  {
    hide ToDigits, CharDigit, DigitChar;
    forall i | 0 <= i < 8 ensures DigitsOf(GroupText(b))[i] == ToDigits(b)[i] {
      DigitsAreNamedOnce(ToDigits(b)[i], GroupText(b)[i]);
    }
  }

  /** The digits of a text spell the same number as the bytes it encodes, first byte first. */
  lemma {:induction false} EncodedIsOneNumber(b: seq<Byte>)
    requires |b| % 5 == 0
    ensures Number(DigitsOf(Encode(b)), 32) == Number(b, 256)
    ensures Power(32, |Encode(b)|) == Power(256, |b|)
    decreases |b|
  {
    hide Number, ToDigits, GroupText, Worth, Power;
    if |b| == 0 {
      EmptyNumbers(Encode(b));
      assert b == [];
    } else {
      var head, rest := b[..5], b[5..];
      EncodedIsOneNumber(rest);
      GroupDigits(head);
      GroupIsOneNumber(head);
      assert DigitsOf(Encode(b)) == DigitsOf(GroupText(head)) + DigitsOf(Encode(rest));
      NumberAppends(DigitsOf(GroupText(head)), DigitsOf(Encode(rest)), 32);
      assert b == head + rest;
      NumberAppends(head, rest, 256);
      PowersMultiply(32, 8, |Encode(rest)|);
      PowersMultiply(256, 5, |rest|);
      GroupPower();
    }
  }

  lemma {:induction false} PowersMultiply(base: int, m: nat, n: nat)
    ensures Power(base, m + n) == Power(base, m) * Power(base, n)
  {
    if n > 0 {
      PowersMultiply(base, m, n - 1);
      Distributes(Power(base, m), Power(base, n - 1), base, 0);
    }
  }

  lemma EmptyNumbers(t: string)
    requires t == ""
    ensures Number(DigitsOf(t), 32) == 0 == Number([], 256) && Power(32, 0) == 1 == Power(256, 0)
  {
  }

  lemma GroupPower()
    ensures Power(32, 8) == Power(256, 5)
  {
    assert Power(32, 2) == 0x400 && Power(32, 4) == 0x10_0000;
    PowersMultiply(32, 4, 4);
    assert Power(256, 2) == 0x1_0000 && Power(256, 3) == 0x100_0000;
    PowersMultiply(256, 2, 3);
  }

  // ---------------------------------------------------------------- addresses

  function Zeros(n: nat): (z: seq<Byte>)
    ensures |z| == n && forall i :: 0 <= i < n ==> z[i] == 0
  {
    seq(n, _ => 0)
  }

  predicate IsPort(port: int) {
    0 <= port < 65536
  }

  /** The ten bytes a label carries: the low half of the address, then the port, low byte first. */
  function Payload(a: AddrPort): (b: seq<Byte>)
    requires IsPort(a.port) && |a.addr| == 16
    ensures |b| == 10
  {
    a.addr[8..] + [a.port % 256, a.port / 256]
  }

  function Place(b: seq<Byte>): AddrPort
    requires |b| == 10
  {
    AddrPort(SUBNET + b[..8], b[8] as int + b[9] as int * 256)
  }

  lemma PayloadNamesPlace(a: AddrPort, b: seq<Byte>)
    requires IsPort(a.port) && |a.addr| == 16 && |b| == 10
    ensures Place(Payload(a)) == AddrPort(SUBNET + a.addr[8..], a.port)
    ensures Place(Payload(a)) == a <==> a.addr[..8] == SUBNET
    ensures IsPort(Place(b).port) && |Place(b).addr| == 16 && Place(b).addr[..8] == SUBNET && Payload(Place(b)) == b
  {
    assert Payload(a)[..8] == a.addr[8..];
    assert a.addr == a.addr[..8] + a.addr[8..];
    assert (SUBNET + a.addr[8..])[..8] == SUBNET && (SUBNET + b[..8])[..8] == SUBNET;
    assert Place(b).addr[8..] == b[..8];
  }

  /** The label for an address and port; empty unless the address has sixteen bytes. */
  function GetEncodedIPPort(a: AddrPort): string
    requires IsPort(a.port)
  {
    if |a.addr| != 16 then "" else ToLower(Encode(Payload(a)))
  }

  /** Line breaks are skipped by the decoder, so they are not part of a whole group. */
  predicate WholeGroups(t: string) {
    |t| % 8 == 0 && '\n' !in t && '\r' !in t
  }

  /** `partial` is the decoder's answer for a text that is not made of whole groups. */
  function DecodeText(t: string, partial: string -> Option<seq<Byte>>): Option<seq<Byte>> {
    if WholeGroups(t) then Decode(t) else partial(t)
  }

  function LookupEncodedIPPort(encoded: string, partial: string -> Option<seq<Byte>>): (r: Option<AddrPort>)
    ensures r.Some? ==> |r.value.addr| == 16 && IsPort(r.value.port)
  {
    var decoded := DecodeText(ToUpper(encoded), partial);
    if decoded.None? || |decoded.value| > 10 || |decoded.value| == 0 then None
    else
      Some(Place(Zeros(10 - |decoded.value|) + decoded.value))
  }

  lemma DigitIsUpper(d: Digit)
    ensures var c := DigitChar(d); Upper(c) == c && c != '\n' && c != '\r' && c != '.'
  {
  }

  lemma GroupIsUpper(b: seq<Byte>)
    requires |b| == 5
    ensures var t := GroupText(b); ToUpper(t) == t && forall c :: c in t ==> c != '\n' && c != '\r' && c != '.'
  {
    var d := ToDigits(b);
    hide ToDigits, DigitChar, Upper;
    forall i | 0 <= i < 8
      ensures var c := GroupText(b)[i]; Upper(c) == c && c != '\n' && c != '\r' && c != '.'
    {
      DigitIsUpper(d[i]);
    }
  }

  lemma {:induction false} EncodedIsUpper(b: seq<Byte>)
    requires |b| % 5 == 0
    ensures var t := Encode(b); ToUpper(t) == t && forall c :: c in t ==> c != '\n' && c != '\r' && c != '.'
  {
    hide GroupText, Upper;
    if |b| > 0 {
      GroupIsUpper(b[..5]);
      EncodedIsUpper(b[5..]);
      var head, rest := GroupText(b[..5]), Encode(b[5..]);
      assert ToUpper(head + rest) == ToUpper(head) + ToUpper(rest);
    }
  }

  /** Looking up any letter case of an address's label gives that address and port back if and
      only if the address lies in the fixed subnet; otherwise its upper half is replaced. */
  lemma LabelRoundTrip(a: AddrPort, encoded: string, partial: string -> Option<seq<Byte>>)
    requires IsPort(a.port) && |a.addr| == 16
    requires ToLower(encoded) == GetEncodedIPPort(a)
    ensures LookupEncodedIPPort(encoded, partial) == Some(AddrPort(SUBNET + a.addr[8..], a.port))
    ensures LookupEncodedIPPort(encoded, partial) == Some(a) <==> a.addr[..8] == SUBNET
    ensures |encoded| == 16 && '.' !in encoded
  {
    var b := Payload(a);
    hide Encode, Decode, Place, Payload, ToUpper, ToLower, SUBNET, LookupEncodedIPPort;
    PayloadNamesPlace(a, b);
    LabelIsEncoded(encoded, b);
    LookupOfEncoded(encoded, b, partial);
  }

  lemma LabelIsEncoded(encoded: string, b: seq<Byte>)
    requires |b| == 10 && ToLower(encoded) == ToLower(Encode(b))
    ensures ToUpper(encoded) == Encode(b) && |encoded| == 16 && '.' !in encoded
  {
    hide Encode;
    EncodedIsUpper(b);
    CaseFolds(encoded);
    CaseFolds(Encode(b));
    NoDotInUpper(encoded);
  }

  lemma LookupOfEncoded(encoded: string, b: seq<Byte>, partial: string -> Option<seq<Byte>>)
    requires |b| == 10 && ToUpper(encoded) == Encode(b)
    ensures LookupEncodedIPPort(encoded, partial) == Some(Place(b))
  {
    hide Encode, Decode, Place, ToUpper;
    EncodedIsUpper(b);
    Base32RoundTrip(b, Encode(b));
    assert Zeros(0) + b == b;
  }

  lemma NoDotInUpper(t: string)
    requires '.' !in ToUpper(t)
    ensures '.' !in t
  {
    assert forall i :: 0 <= i < |t| ==> ToUpper(t)[i] in ToUpper(t);
  }

  /** Conversely a label of sixteen characters that is looked up is the label of what it names,
      up to letter case, so no two such labels name the same place. */
  lemma LookupRoundTrip(encoded: string, partial: string -> Option<seq<Byte>>)
    requires |encoded| == 16 && WholeGroups(ToUpper(encoded)) && LookupEncodedIPPort(encoded, partial).Some?
    ensures GetEncodedIPPort(LookupEncodedIPPort(encoded, partial).value) == ToLower(encoded)
  {
    hide Encode, Decode, Place, Payload;
    var b := Decode(ToUpper(encoded)).value;
    assert Zeros(0) + b == b;
    PayloadNamesPlace(Place(b), b);
    Base32RoundTrip(b, ToUpper(encoded));
    CaseFolds(encoded);
  }

  lemma ZeroGroup(t: string)
    requires t == "AAAAAAAA"
    ensures TextGroup(t) == Some(Zeros(5))
  {
    assert forall i :: 0 <= i < 8 ==> t[i] == 'A';
    var d: seq<Digit> := seq(8, i requires 0 <= i < 8 => CharDigit(t[i]).value);
    assert forall i :: 0 <= i < 8 ==> d[i] == 0;
    assert ToBytes(d) == Zeros(5);
  }

  /** A label of eight characters is looked up as if eight zero digits stood in front of it. */
  lemma ShortLabelsAlias(encoded: string, partial: string -> Option<seq<Byte>>)
    requires |encoded| == 8 && WholeGroups(ToUpper(encoded))
    ensures LookupEncodedIPPort(encoded, partial) == LookupEncodedIPPort("aaaaaaaa" + encoded, partial)
  {
    var t, zeros := ToUpper(encoded), "AAAAAAAA";
    var long := ToUpper("aaaaaaaa" + encoded);
    assert long == zeros + t;
    assert long[..8] == zeros && long[8..] == t;
    ZeroGroup(zeros);
    assert t[..8] == t && t[8..] == "";
    hide TextGroup, Place;
    if TextGroup(t).Some? {
      var b := TextGroup(t).value;
      assert Decode(t) == Some(b) by { assert b + [] == b; }
      assert Zeros(5) + b == Zeros(0) + (Zeros(5) + b);
    }
  }

  /** One published label, spelled out: the low half first, then the port, low byte first. */
  lemma PublishedLabel(partial: string -> Option<seq<Byte>>)
    ensures var a := AddrPort([0xfd, 0xb0, 0x01, 0xad, 0x4d, 0x05, 0x81, 0x42, 1, 2, 3, 4, 5, 6, 7, 8], 443);
      GetEncodedIPPort(a) == "aebagbafaydqroyb" && LookupEncodedIPPort("AEBAGBAFAYDQROYB", partial) == Some(a)
  {
    hide *;
    var a := AddrPort([0xfd, 0xb0, 0x01, 0xad, 0x4d, 0x05, 0x81, 0x42, 1, 2, 3, 4, 5, 6, 7, 8], 443);
    PublishedPayload(a);
    PublishedText();
    PublishedCase();
    LabelRoundTrip(a, "AEBAGBAFAYDQROYB", partial);
  }

  lemma PublishedPayload(a: AddrPort)
    requires a == AddrPort([0xfd, 0xb0, 0x01, 0xad, 0x4d, 0x05, 0x81, 0x42, 1, 2, 3, 4, 5, 6, 7, 8], 443)
    ensures IsPort(a.port) && a.addr[..8] == SUBNET && Payload(a) == [1, 2, 3, 4, 5, 6, 7, 8, 187, 1]
    ensures GetEncodedIPPort(a) == ToLower(Encode(Payload(a)))
  {
    hide Encode, ToLower;
  }

  lemma PublishedCase()
    ensures ToLower("AEBAGBAFAYDQROYB") == "aebagbafaydqroyb"
  {
  }

  lemma PublishedText()
    ensures Encode([1, 2, 3, 4, 5, 6, 7, 8, 187, 1]) == "AEBAGBAFAYDQROYB"
  {
    FirstGroup();
    SecondGroup();
    var b: seq<Byte> := [1, 2, 3, 4, 5, 6, 7, 8, 187, 1];
    assert b[..5] == [1, 2, 3, 4, 5] && b[5..] == [6, 7, 8, 187, 1];
    assert b[5..][..5] == b[5..] && b[5..][5..] == [];
    hide GroupText;
    assert "AEBAGBAF" + ("AYDQROYB" + "") == "AEBAGBAFAYDQROYB";
  }

  lemma FirstGroup()
    ensures GroupText([1, 2, 3, 4, 5]) == "AEBAGBAF"
  {
    assert ToDigits([1, 2, 3, 4, 5]) == [0, 4, 1, 0, 6, 1, 0, 5];
  }

  lemma SecondGroup()
    ensures GroupText([6, 7, 8, 187, 1]) == "AYDQROYB"
  {
    assert ToDigits([6, 7, 8, 187, 1]) == [0, 24, 3, 16, 17, 14, 24, 1];
  }

  /** A label of whole groups is looked up if and only if it has eight or sixteen characters, all
      of the alphabet in either case; any other text if and only if the library decodes one to ten
      bytes, and then to the address and port that end in them after zeros. */
  lemma LookupSucceedsExactly(encoded: string, partial: string -> Option<seq<Byte>>)
    ensures var t, r := ToUpper(encoded), LookupEncodedIPPort(encoded, partial);
      if WholeGroups(t) then
        r.Some? <==> |t| in {8, 16} && forall i :: 0 <= i < |t| ==> 'A' <= t[i] <= 'Z' || '2' <= t[i] <= '7'
      else
        && (r.Some? <==> partial(t).Some? && 1 <= |partial(t).value| <= 10)
        && (r.Some? ==>
          var b := Zeros(10 - |partial(t).value|) + partial(t).value;
          r.value == AddrPort(SUBNET + b[..8], b[8] as int + b[9] as int * 256))
  {
    var t := ToUpper(encoded);
    if WholeGroups(t) {
      DecodesExactly(t);
      hide Decode, CharDigit, Place;
    }
  }

  lemma {:induction false} DecodesExactly(t: string)
    requires |t| % 8 == 0
    ensures Decode(t).Some? <==> forall i :: 0 <= i < |t| ==> 'A' <= t[i] <= 'Z' || '2' <= t[i] <= '7'
  {
    if |t| > 0 {
      DecodesExactly(t[8..]);
      assert t == t[..8] + t[8..];
      hide ToBytes;
    }
  }
}
