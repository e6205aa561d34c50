/** Address normalisation: the cache key a request is filed under, and the
    scheme comparison. Host/port splitting follows Go's net package for
    addresses without IPv6 brackets. */
module HostPort {
  import opened Types

  /** Index of the last `ch` in `s`, or -1 when there is none. */
  function LastIndex(s: string, ch: char): (i: int)
    ensures -1 <= i < |s|
    ensures i >= 0 ==> s[i] == ch
    ensures forall k :: i < k < |s| ==> s[k] != ch
  {
    if s == [] then -1
    else if s[|s| - 1] == ch then |s| - 1
    else LastIndex(s[..|s| - 1], ch)
  }

  /** How many colons `s` contains. */
  function Colons(s: string): nat {
    multiset(s)[':']
  }

  /** Splitting "host:port" at its last colon: no colon is a missing port, and a
      colon left in the host part is one colon too many. Either way the split
      fails. */
  function SplitHostPort(hostport: string): (r: Option<(string, string)>)
    ensures r.Some? <==> Colons(hostport) == 1
    ensures r.Some? ==> hostport == r.value.0 + ":" + r.value.1
    ensures r.Some? ==> ':' !in r.value.0 && ':' !in r.value.1
  {
    var i := LastIndex(hostport, ':');
    if i < 0 then
      None
    else
      assert hostport == hostport[..i] + [':'] + hostport[i + 1..];
      assert ':' !in hostport[i + 1..];
      if ':' in hostport[..i] then None
      else Some((hostport[..i], hostport[i + 1..]))
  }

  /** Joining a host and a port; a host holding a colon (an IPv6 literal) is
      bracketed. */
  function JoinHostPort(host: string, port: string): string {
    if ':' in host then "[" + host + "]:" + port else host + ":" + port
  }

  /** Splitting undoes joining, for a host and a port without colons. */
  lemma {:induction false} SplitJoin(host: string, port: string)
    requires ':' !in host && ':' !in port
    ensures SplitHostPort(JoinHostPort(host, port)) == Some((host, port))
  {
    var s := host + ":" + port;
    assert multiset(s) == multiset(host) + multiset{':'} + multiset(port) by {
      assert s == host + [':'] + port;
    }
    var r := SplitHostPort(s);
    var (h, p) := r.value;
    assert h == s[..|host|] == host;
    assert p == s[|host| + 1..] == port;
  }

  /** Joining undoes a successful split. */
  lemma JoinSplit(hostport: string)
    requires SplitHostPort(hostport).Some?
    ensures JoinHostPort(SplitHostPort(hostport).value.0, SplitHostPort(hostport).value.1) == hostport
  {
  }

  /** The cache key of a request: its URL host with its own port, or with
      port 443 when it has none, whatever the scheme. */
  function DialTLSAddr(host: string): (addr: string)
    ensures Colons(host) <= 1 ==> SplitHostPort(addr).Some?
    ensures Colons(host) == 1 ==> SplitHostPort(addr) == SplitHostPort(host)
    ensures Colons(host) == 0 ==> SplitHostPort(addr) == Some((host, "443"))
    ensures Colons(host) >= 2 ==> addr == "[" + host + "]:443"
  {
    match SplitHostPort(host)
    case Some((h, p)) =>
      SplitJoin(h, p);
      JoinHostPort(h, p)
    case None =>
      if Colons(host) == 0 then SplitJoin(host, "443"); JoinHostPort(host, "443")
      else JoinHostPort(host, "443")
  }

  /** A host that already carries a port is its own cache key. */
  lemma DialAddrKeepsPort(host: string)
    requires SplitHostPort(host).Some?
    ensures DialTLSAddr(host) == host
  {
  }

  /** A host without a port is keyed under port 443. */
  lemma DialAddrDefaultsTo443(host: string)
    requires ':' !in host
    ensures DialTLSAddr(host) == host + ":443"
  {
  }

  /** Normalising a normalised key changes nothing. */
  lemma DialAddrIdempotent(host: string)
    requires Colons(host) <= 1
    ensures DialTLSAddr(DialTLSAddr(host)) == DialTLSAddr(host)
  {
    DialAddrKeepsPort(DialTLSAddr(host));
  }

  /** ASCII lower-casing of one character. */
  function LowerChar(c: char): char {
    if 'A' <= c <= 'Z' then (c as int + 32) as char else c
  }

  /** ASCII lower-casing of a string, as the scheme is compared. */
  function Lower(s: string): (r: string)
    ensures |r| == |s|
    ensures forall i :: 0 <= i < |s| ==> r[i] == LowerChar(s[i])
    ensures forall i :: 0 <= i < |r| ==> !('A' <= r[i] <= 'Z')
  {
    if s == [] then [] else [LowerChar(s[0])] + Lower(s[1..])
  }

  /** Lower-casing twice is lower-casing once. */
  lemma LowerIdempotent(s: string)
    ensures Lower(Lower(s)) == Lower(s)
  {
  }
}
