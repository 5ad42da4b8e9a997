/** Public host names: how the relay prints one for a token and reads one from a request. */
module HostNames {
  import opened Sequences
  import opened Base64

  const DIGEST_SIZE: nat := 20
  const HEX := "0123456789abcdef"

  function HexByte(b: Byte): (s: string)
    ensures |s| == 2 && s[0] in HEX && s[1] in HEX
  {
    [HEX[b / 16], HEX[b % 16]]
  }

  function HexString(bs: Bytes): (s: string)
    ensures |s| == 2 * |bs|
    ensures forall i :: 0 <= i < |s| ==> s[i] in HEX
  {
    if bs == [] then "" else HexByte(bs[0]) + HexString(bs[1..])
  }

  /** The subdomain of a token, given the SHA-1 digest of the token. */
  function DeterministicSubdomain(digest: Bytes): (sub: string)
    requires |digest| == DIGEST_SIZE
    ensures |sub| == 11 && '.' !in sub && ':' !in sub
    ensures sub[0] == 'w' && forall i :: 1 <= i < 11 ==> sub[i] in HEX
  {
    "w" + HexString(digest)[..10]
  }

  lemma HexDigit(a: nat, b: nat)
    requires a < 16 && b < 16 && HEX[a] == HEX[b]
    ensures a == b
  {
  }

  lemma HexPair(x: Byte, y: Byte)
    ensures HexByte(x) == HexByte(y) <==> x == y
  {
    if HexByte(x) == HexByte(y) {
      assert HexByte(x)[0] == HexByte(y)[0] && HexByte(x)[1] == HexByte(y)[1];
      HexDigit(x / 16, y / 16);
      HexDigit(x % 16, y % 16);
    }
  }

  /** Two digits for each byte: equally many bytes at the front agree if and only if twice as many digits do. */
  lemma {:induction false} HexPrefixes(xs: Bytes, ys: Bytes, n: nat)
    requires n <= |xs| && n <= |ys|
    ensures HexString(xs)[..2 * n] == HexString(ys)[..2 * n] <==> xs[..n] == ys[..n]
    decreases n
  {
    if n > 0 {
      HexHead(xs, n);
      HexHead(ys, n);
      hide HexString, HexByte;
      HexPair(xs[0], ys[0]);
      HexPrefixes(xs[1..], ys[1..], n - 1);
      var x, y := HexString(xs[1..])[..2 * (n - 1)], HexString(ys[1..])[..2 * (n - 1)];
      SamePieces(HexByte(xs[0]), x, HexByte(ys[0]), y);
      SamePieces([xs[0]], xs[1..][..n - 1], [ys[0]], ys[1..][..n - 1]);
      HeadPiece(xs, n);
      HeadPiece(ys, n);
    }
  }

  lemma HeadPiece(xs: Bytes, n: nat)
    requires 0 < n <= |xs|
    ensures xs[..n] == [xs[0]] + xs[1..][..n - 1]
  {
  }

  lemma HexHead(xs: Bytes, n: nat)
    requires 0 < n <= |xs|
    ensures HexString(xs)[..2 * n] == HexByte(xs[0]) + HexString(xs[1..])[..2 * (n - 1)]
  {
    hide HexByte;
  }

  lemma SamePieces<T>(a: seq<T>, b: seq<T>, c: seq<T>, d: seq<T>)
    requires |a| == |c|
    ensures a + b == c + d <==> a == c && b == d
  {
    if a + b == c + d {
      assert a == (a + b)[..|a|] && c == (c + d)[..|a|];
      assert b == (a + b)[|a|..] && d == (c + d)[|a|..];
    }
  }

  /** Two tokens share a subdomain if and only if the first five bytes of their digests agree. */
  lemma SubdomainsCollideIff(a: Bytes, b: Bytes)
    requires |a| == DIGEST_SIZE && |b| == DIGEST_SIZE
    ensures DeterministicSubdomain(a) == DeterministicSubdomain(b) <==> a[..5] == b[..5]
  {
    HexPrefixes(a, b, 5);
    var x, y := DeterministicSubdomain(a), DeterministicSubdomain(b);
    assert x[1..] == HexString(a)[..10] && y[1..] == HexString(b)[..10];
    assert x == ['w'] + x[1..] && y == ['w'] + y[1..];
  }

  function BeforeColon(h: string): (r: string)
    ensures ':' !in r
    ensures r == h || (|r| < |h| && h[..|r|] == r && h[|r|] == ':')
  {
    if h == "" || h[0] == ':' then "" else [h[0]] + BeforeColon(h[1..])
  }

  predicate HasSuffix(h: string, suffix: string) {
    |suffix| <= |h| && h[|h| - |suffix|..] == suffix
  }

  function SubdomainFromHost(host: string, domain: string): Option<string> {
    var h := BeforeColon(host);
    var suffix := "." + domain;
    if !HasSuffix(h, suffix) then None
    else
      var sub := h[..|h| - |suffix|];
      if sub == "" || '.' in sub then None else Some(sub)
  }

  /** The host part of the URL announced to a registered tunnel. */
  function PublicHost(sub: string, domain: string): string {
    sub + "." + domain
  }

  predicate OptionalPort(port: string) {
    port == "" || port[0] == ':'
  }

  lemma {:induction false} BeforeColonStops(h: string, port: string)
    requires ':' !in h && OptionalPort(port)
    ensures BeforeColon(h + port) == h
    decreases |h|
  {
    if h == "" {
      assert h + port == port;
    } else {
      assert (h + port)[1..] == h[1..] + port;
      BeforeColonStops(h[1..], port);
    }
  }

  /** A host is accepted exactly when, up to the first colon, it is one non-empty dot-free label before the domain. */
  lemma AcceptedHosts(host: string, domain: string, sub: string)
    ensures SubdomainFromHost(host, domain) == Some(sub)
       <==> BeforeColon(host) == PublicHost(sub, domain) && sub != "" && '.' !in sub
  {
    var h, suffix := BeforeColon(host), "." + domain;
    assert PublicHost(sub, domain) == sub + suffix;
    if HasSuffix(h, suffix) {
      assert h == h[..|h| - |suffix|] + suffix;
    }
    if h == sub + suffix {
      assert h[|h| - |suffix|..] == suffix && h[..|h| - |suffix|] == sub;
    }
  }

  /** Every host announced for a token, with or without a port, is read back as that token's subdomain. */
  lemma PrintedHostParses(digest: Bytes, domain: string, port: string)
    requires |digest| == DIGEST_SIZE && ':' !in domain && OptionalPort(port)
    ensures
      var sub := DeterministicSubdomain(digest);
      SubdomainFromHost(PublicHost(sub, domain) + port, domain) == Some(sub)
  {
    var sub := DeterministicSubdomain(digest);
    BeforeColonStops(PublicHost(sub, domain), port);
    AcceptedHosts(PublicHost(sub, domain) + port, domain, sub);
  }

  /** A domain configured with a port can never be matched: every public request is rejected. */
  lemma DomainWithColonMatchesNothing(host: string, domain: string)
    requires ':' in domain
    ensures SubdomainFromHost(host, domain).None?
  {
    var i :| 0 <= i < |domain| && domain[i] == ':';
    forall sub: string ensures ':' in PublicHost(sub, domain) {
      assert PublicHost(sub, domain)[|sub| + 1 + i] == ':';
    }
    var r := SubdomainFromHost(host, domain);
    if r.Some? {
      AcceptedHosts(host, domain, r.value);
    }
  }
}
