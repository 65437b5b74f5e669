/** The text a quota owner is filed under. The controller's model compares owners by their parts;
    here the parts are put back into text, and two texts are shown to be equal exactly when the
    parts that make an owner are. */
module OwnerNames {
  import opened NameCodec

  function HexDigit(n: int): char
    requires 0 <= n < 16
  {
    if n < 10 then ('0' as int + n) as char else ('a' as int + n - 10) as char
  }

  function Hex(bytes: seq<Byte>): (text: string)
    ensures |text| == 2 * |bytes| && ':' !in text
  {
    if |bytes| == 0 then ""
    else [HexDigit(bytes[0] / 16), HexDigit(bytes[0] % 16)] + Hex(bytes[1..])
  }

  /** Two digits a byte, the high half first. */
  lemma {:induction false} HexSpells(bytes: seq<Byte>, i: nat)
    requires i < |bytes|
    ensures Hex(bytes)[2 * i] == "0123456789abcdef"[bytes[i] / 16]
    ensures Hex(bytes)[2 * i + 1] == "0123456789abcdef"[bytes[i] % 16]
  {
    if i == 0 {
      HexDigitIs(bytes[0] / 16);
      HexDigitIs(bytes[0] % 16);
    } else {
      HexSpells(bytes[1..], i - 1);
      assert Hex(bytes)[2 * i] == Hex(bytes[1..])[2 * (i - 1)];
      assert Hex(bytes)[2 * i + 1] == Hex(bytes[1..])[2 * (i - 1) + 1];
      assert bytes[1..][i - 1] == bytes[i];
    }
  }

  lemma HexDigitIs(n: int)
    requires 0 <= n < 16
    ensures HexDigit(n) == "0123456789abcdef"[n]
  {
  }

  /** The generation of a secret: none for the empty one, otherwise the first half of `sum`, its
      32-byte digest, in hexadecimal. */
  function AuthGeneration(secret: string, sum: seq<Byte>): (text: string)
    requires |sum| == 32
    ensures if secret == "" then text == "" else |text| == 32 && ':' !in text
  {
    if secret == "" then "" else Hex(sum[..16])
  }

  /** The generation spells the first sixteen bytes of the digest. */
  lemma GenerationSpells(secret: string, sum: seq<Byte>, i: nat)
    requires |sum| == 32 && secret != "" && i < 16
    ensures AuthGeneration(secret, sum)[2 * i] == "0123456789abcdef"[sum[i] / 16]
    ensures AuthGeneration(secret, sum)[2 * i + 1] == "0123456789abcdef"[sum[i] % 16]
  {
    HexSpells(sum[..16], i);
    hide Hex;
  }

  function OwnerText(peer: string, keyID: string, generation: string): string {
    if keyID == "open" then "peer:" + peer else "key:" + generation + ":" + keyID
  }

  ghost predicate SameOwner(peer: string, keyID: string, g: string, other: string, otherID: string, h: string) {
    if keyID == "open" then otherID == "open" && peer == other else keyID == otherID && g == h
  }

  /** The first colon after the generation ends it. */
  lemma KeyTextsSplit(g: string, id: string, h: string, other: string)
    requires ':' !in g && ':' !in h && g + ":" + id == h + ":" + other
    ensures g == h && id == other
  {
    var s, t := g + ":" + id, h + ":" + other;
    assert s[|g|] == ':' && t[|h|] == ':';
    assert s[..|g|] == g && t[..|h|] == h;
    assert forall i :: 0 <= i < |g| ==> s[i] == g[i];
    assert forall i :: 0 <= i < |h| ==> t[i] == h[i];
    assert |g| == |h|;
    assert s[|g| + 1..] == id && t[|h| + 1..] == other;
  }

  /** Whenever generations hold no colon, as every one the controller writes, two peers are filed
      under the same text exactly when they have the same owner, and never under the empty text,
      which load refuses. Nothing is asked of ids, and the lengths do not matter. */
  lemma OwnerTextIsInjective(peer: string, keyID: string, g: string, other: string, otherID: string, h: string)
    requires ':' !in g && ':' !in h
    ensures OwnerText(peer, keyID, g) == OwnerText(other, otherID, h) <==>
      SameOwner(peer, keyID, g, other, otherID, h)
    ensures OwnerText(peer, keyID, g) != ""
  {
    var s, t := OwnerText(peer, keyID, g), OwnerText(other, otherID, h);
    if s == t {
      assert s[0] == t[0];
      if keyID == "open" {
        assert s[5..] == peer && t[5..] == other;
      } else {
        assert s[4..] == g + ":" + keyID && t[4..] == h + ":" + otherID;
        KeyTextsSplit(g, keyID, h, otherID);
      }
    }
  }

  /** So the owners of controller-written records are told apart by their texts: generations are
      those of two secrets, whatever the secrets and their digests are. */
  lemma WrittenOwnersAreDistinct(peer: string, keyID: string, secret: string, sum: seq<Byte>,
    other: string, otherID: string, otherSecret: string, otherSum: seq<Byte>)
    requires |sum| == 32 && |otherSum| == 32
    ensures var g, h := AuthGeneration(secret, sum), AuthGeneration(otherSecret, otherSum);
      OwnerText(peer, keyID, g) == OwnerText(other, otherID, h) <==>
        SameOwner(peer, keyID, g, other, otherID, h)
  {
    OwnerTextIsInjective(peer, keyID, AuthGeneration(secret, sum), other, otherID,
      AuthGeneration(otherSecret, otherSum));
  }

  /** Load accepts any generation that is not empty. In a file the controller did not write, one
      with a colon can make two keys share a text. */
  lemma ColonsWouldCollide()
    ensures OwnerText("", "b:c", "a") == OwnerText("", "c", "a:b")
    ensures OwnerText("", "b:c", "a") == "key:a:b:c" && OwnerText("p", "open", "") == "peer:p"
    ensures !SameOwner("", "b:c", "a", "", "c", "a:b")
  {
    assert OwnerText("", "b:c", "a") == "key:a:b:c" == OwnerText("", "c", "a:b");
    assert OwnerText("p", "open", "") == "peer:p";
  }
}
