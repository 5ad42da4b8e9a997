/**
  Publishing an RSA key as a JSON web key and reading key sets back: base64url text over big-endian
  base-256 numbers (sections 2 and 6.3.1 of RFC 7518, section 5 of RFC 4648).
*/
module Jwks {
  import opened Sequences
  import opened Base64

  const TWO63: int := 0x8000_0000_0000_0000
  const TWO64: int := 0x1_0000_0000_0000_0000

  datatype Key = Key(modulus: nat, exponent: int)

  datatype Entry = Entry(kty: string, kid: string, n: string, e: string)

  /** Reduction to a signed 64-bit integer. */
  function Wrap64(x: int): (r: int)
    ensures -TWO63 <= r < TWO63
    ensures -TWO63 <= x < TWO63 ==> r == x
  {
    (x + TWO63) % TWO64 - TWO63
  }

  /** The shortest big-endian representation; none at all for zero. */
  function ToBytes(n: nat): Bytes {
    if n == 0 then [] else ToBytes(n / 256) + [n % 256]
  }

  function FromBytes(bs: Bytes): nat {
    if bs == [] then 0 else FromBytes(bs[..|bs| - 1]) * 256 + bs[|bs| - 1]
  }

  /** What the shift-and-add loop computes in a 64-bit integer. */
  function ExponentOf(bs: Bytes): int {
    if bs == [] then 0 else Wrap64(Wrap64(ExponentOf(bs[..|bs| - 1]) * 256) + bs[|bs| - 1])
  }

  method DecodeExponent(bs: Bytes) returns (e: int)
    ensures e == ExponentOf(bs)
  {
    e := 0;
    for i := 0 to |bs|
      invariant e == ExponentOf(bs[..i])
    {
      assert bs[..i + 1][..i] == bs[..i];
      e := Wrap64(Wrap64(e * 256) + bs[i]);
    }
    assert bs[..|bs|] == bs;
  }

  lemma {:induction false} ToBytesNonEmpty(n: nat)
    ensures ToBytes(n) == [] <==> n == 0
  {
  }

  lemma {:induction false} NumberRoundTrip(n: nat)
    ensures FromBytes(ToBytes(n)) == n
    decreases n
  {
    if n > 0 {
      NumberRoundTrip(n / 256);
      assert ToBytes(n)[..|ToBytes(n)| - 1] == ToBytes(n / 256);
    }
  }

  /** On the bytes of an exponent that fits, the loop yields it and no intermediate value ever exceeds it. */
  lemma {:induction false} ExponentRoundTrip(e: nat)
    requires e < TWO63
    ensures ExponentOf(ToBytes(e)) == e
    ensures forall k :: 0 <= k <= |ToBytes(e)| ==> 0 <= ExponentOf(ToBytes(e)[..k]) <= e
    decreases e
  {
    var bs := ToBytes(e);
    if e > 0 {
      ExponentRoundTrip(e / 256);
      var init := bs[..|bs| - 1];
      assert init == ToBytes(e / 256);
      assert e / 256 * 256 + e % 256 == e;
      forall k | 0 <= k <= |bs| ensures 0 <= ExponentOf(bs[..k]) <= e {
        if k < |bs| {
          assert bs[..k] == init[..k];
          assert ExponentOf(init[..k]) <= e / 256;
        } else {
          assert bs[..k] == bs;
        }
      }
    }
  }

  // ---- Key sets ----

  /** An entry's key, or `None` if the entry is passed over. The relay demands a key id, the invite service does not. */
  function ParseEntry(k: Entry, needKid: bool): Option<Key> {
    if k.kty != "RSA" || (needKid && k.kid == "") || k.n == "" || k.e == "" then None
    else
      var n, e := Decode(k.n, RawURL), Decode(k.e, RawURL);
      if !n.ok || !e.ok || ExponentOf(e.data) == 0 then None
      else Some(Key(FromBytes(n.data), ExponentOf(e.data)))
  }

  /** On bytes whose number fits, the loop yields that number, however many leading zeros they have. */
  lemma {:induction false} ExponentIsNumber(bs: Bytes)
    requires FromBytes(bs) < TWO63
    ensures ExponentOf(bs) == FromBytes(bs)
    decreases |bs|
  {
    if bs != [] {
      ExponentIsNumber(bs[..|bs| - 1]);
    }
  }

  /** An entry yields a key exactly if it is of type RSA, has the key id demanded, and both its numbers are there and
      decode, the exponent not being zero; the key then has these two numbers. */
  lemma EntryParsesIff(k: Entry, needKid: bool, key: Key)
    requires FromBytes(Decode(k.e, RawURL).data) < TWO63
    ensures ParseEntry(k, needKid) == Some(key) <==>
      && k.kty == "RSA" && (k.kid != "" || !needKid) && k.n != "" && k.e != ""
      && Decode(k.n, RawURL).ok && Decode(k.e, RawURL).ok
      && key.modulus == FromBytes(Decode(k.n, RawURL).data)
      && key.exponent == FromBytes(Decode(k.e, RawURL).data) && key.exponent != 0
  {
    ExponentIsNumber(Decode(k.e, RawURL).data);
  }

  function ParseKeys(ks: seq<Entry>, needKid: bool): map<string, Key> {
    if ks == [] then map[]
    else
      var init, last := ParseKeys(ks[..|ks| - 1], needKid), ks[|ks| - 1];
      var key := ParseEntry(last, needKid);
      if key.Some? then init[last.kid := key.value] else init
  }

  method Parse(ks: seq<Entry>, needKid: bool) returns (out: map<string, Key>)
    ensures out == ParseKeys(ks, needKid)
  {
    out := map[];
    for i := 0 to |ks|
      invariant out == ParseKeys(ks[..i], needKid)
    {
      var k := ks[i];
      assert ks[..i + 1][..i] == ks[..i];
      if k.kty != "RSA" || (needKid && k.kid == "") || k.n == "" || k.e == "" {
        continue;
      }
      var nBytes := Decode(k.n, RawURL);
      if !nBytes.ok {
        continue;
      }
      var eBytes := Decode(k.e, RawURL);
      if !eBytes.ok {
        continue;
      }
      var e := DecodeExponent(eBytes.data);
      if e == 0 {
        continue;
      }
      out := out[k.kid := Key(FromBytes(nBytes.data), e)];
    }
    assert ks[..|ks|] == ks;
  }

  /** The entry published for a key. */
  function Publish(kid: string, modulus: nat, exponent: nat): Entry {
    Entry("RSA", kid, Encode(ToBytes(modulus), RawURL), Encode(ToBytes(exponent), RawURL))
  }

  /** Parsing the published entry gives back the key exactly when modulus and exponent are positive and, for the
      relay, the key id is not empty; in every other case the entry is passed over. */
  lemma PublishedKeyParses(kid: string, modulus: nat, exponent: nat, needKid: bool)
    requires exponent < TWO63
    ensures ParseEntry(Publish(kid, modulus, exponent), needKid)
         == if modulus > 0 && exponent > 0 && (needKid ==> kid != "") then Some(Key(modulus, exponent)) else None
  {
    RoundTrip(ToBytes(modulus), RawURL);
    RoundTrip(ToBytes(exponent), RawURL);
    NumberRoundTrip(modulus);
    ExponentRoundTrip(exponent);
    ToBytesNonEmpty(modulus);
    ToBytesNonEmpty(exponent);
    EncodeEmpty(ToBytes(modulus), RawURL);
    EncodeEmpty(ToBytes(exponent), RawURL);
  }

  lemma PublishedSetParses(kid: string, modulus: nat, exponent: nat, needKid: bool)
    requires exponent < TWO63
    ensures ParseKeys([Publish(kid, modulus, exponent)], needKid) == map[kid := Key(modulus, exponent)]
       <==> modulus > 0 && exponent > 0 && (needKid ==> kid != "")
  {
    PublishedKeyParses(kid, modulus, exponent, needKid);
    var ks := [Publish(kid, modulus, exponent)];
    assert ks[..0] == [];
    assert kid in map[kid := Key(modulus, exponent)];
    hide Decode, Encode, ParseEntry;
  }

  /** Entry `i` is the last one that parses among those with its key id. */
  ghost predicate LastParsed(ks: seq<Entry>, needKid: bool, i: nat) {
    && i < |ks| && ParseEntry(ks[i], needKid).Some?
    && forall j :: i < j < |ks| && ks[j].kid == ks[i].kid ==> ParseEntry(ks[j], needKid).None?
  }

  /** A key set maps an id to a key exactly when the last parsing entry with that id carries it: malformed
      entries, and entries with other ids, never matter. */
  lemma {:induction false} KeysAreLastParsed(ks: seq<Entry>, needKid: bool, kid: string, key: Key)
    ensures (kid in ParseKeys(ks, needKid) && ParseKeys(ks, needKid)[kid] == key)
       <==> exists i: nat :: LastParsed(ks, needKid, i) && ks[i].kid == kid && ParseEntry(ks[i], needKid) == Some(key)
    decreases |ks|
  {
    hide ParseEntry;
    if ks != [] {
      var n := |ks| - 1;
      var init := ks[..n];
      KeysAreLastParsed(init, needKid, kid, key);
      if ParseEntry(ks[n], needKid).Some? && ks[n].kid == kid {
        assert LastParsed(ks, needKid, n);
      } else {
        forall i: nat | i < n && ks[i].kid == kid
          ensures LastParsed(ks, needKid, i) <==> LastParsed(init, needKid, i)
        {
          assert forall j :: i < j < n ==> init[j] == ks[j];
        }
      }
    }
  }

  /** Deleting an entry that does not parse leaves the key set as it was. */
  lemma {:induction false} MalformedIgnored(before: seq<Entry>, bad: Entry, rest: seq<Entry>, needKid: bool)
    requires ParseEntry(bad, needKid).None?
    ensures ParseKeys(before + [bad] + rest, needKid) == ParseKeys(before + rest, needKid)
    decreases |rest|
  {
    hide ParseEntry;
    if rest == [] {
      assert (before + [bad])[..|before|] == before;
      assert before + [bad] + rest == before + [bad] && before + rest == before;
    } else {
      var n := |rest| - 1;
      MalformedIgnored(before, bad, rest[..n], needKid);
      assert (before + [bad] + rest)[..|before| + 1 + n] == before + [bad] + rest[..n];
      assert (before + rest)[..|before| + n] == before + rest[..n];
    }
  }

  // ---- The relay's verifier ----

  class JWKSVerifier {
    var keys: map<string, Key>
    var enabled: bool

    constructor ()
      ensures keys == map[] && !enabled
    {
      keys, enabled := map[], false;
    }

    /** `doc` is the decoded response, or `None` if it could not be had; a set without valid keys is an error. */
    method FetchOnce(doc: Option<seq<Entry>>) returns (ok: bool)
      modifies this
      ensures ok <==> doc.Some? && ParseKeys(doc.value, true) != map[]
      ensures enabled == ok
      ensures keys == if ok then ParseKeys(doc.value, true) else old(keys)
    {
      ok := false;
      if doc.Some? {
        var out := Parse(doc.value, true);
        ok := out != map[];
        if ok {
          keys := out;
        }
      }
      enabled := ok;
    }

    /** A failed refresh keeps the cached keys and never disables verification. */
    method Refresh(doc: Option<seq<Entry>>)
      modifies this
      ensures var ok := doc.Some? && ParseKeys(doc.value, true) != map[];
              keys == (if ok then ParseKeys(doc.value, true) else old(keys)) && enabled == (old(enabled) || ok)
    {
      if doc.Some? {
        var out := Parse(doc.value, true);
        if out != map[] {
          keys, enabled := out, true;
        }
      }
    }
  }
}
