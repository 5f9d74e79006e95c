/** How a guest finds the center: the host prints its port into its network host name, the guest
    searches the node list for such a name. */
module CenterDiscovery {
  import opened Common

  const HOST_PREFIX := "scaffolding-mc-server-"
  const FALLBACK_PORT: nat := 25000
  const ATTEMPTS: nat := 60
  const U32_LIMIT: nat := 0x1_0000_0000

  /// ## Decimal numerals

  predicate IsDigit(c: char) {
    '0' <= c <= '9'
  }

  predicate AllDigits(s: string) {
    forall i :: 0 <= i < |s| ==> IsDigit(s[i])
  }

  function Decimal(n: nat): (s: string)
    ensures s != [] && AllDigits(s)
  {
    var last := ['0' + (n % 10) as char];
    if n < 10 then last else Decimal(n / 10) + last
  }

  function Number(s: string): nat
    requires AllDigits(s)
  {
    if s == [] then 0 else 10 * Number(s[..|s| - 1]) + (s[|s| - 1] - '0') as nat
  }

  lemma {:induction false} NumberOfDecimal(n: nat)
    ensures Number(Decimal(n)) == n
  {
    if n >= 10 {
      NumberOfDecimal(n / 10);
      assert Decimal(n)[..|Decimal(n)| - 1] == Decimal(n / 10);
    }
  }

  /** `str::parse::<u32>` on digits: no digits or an overflow is an error. */
  function ParseU32(s: string): Option<nat> {
    if s != [] && AllDigits(s) && Number(s) < U32_LIMIT then Some(Number(s)) else None
  }

  /// ## Host names

  function Hostname(port: nat): string {
    HOST_PREFIX + Decimal(port)
  }

  /** The port a host name stands for: it is the prefix followed by digits, and they are in range. */
  function CenterPort(hostname: string): Option<nat> {
    var n := |HOST_PREFIX|;
    if |hostname| < n || hostname[..n] != HOST_PREFIX then None else
      match ParseU32(hostname[n..])
      case None => None
      case Some(port) => if 1024 < port <= 65535 then Some(port) else None
  }

  /** A host name stands for a port exactly when it is the prefix and a numeral, leading zeros or not, of that
      number, and the number is in range. */
  lemma CenterPortExactly(hostname: string, port: nat)
    ensures CenterPort(hostname) == Some(port) <==>
            && 1024 < port <= 65535
            && exists digits: string ::
                 digits != [] && AllDigits(digits) && hostname == HOST_PREFIX + digits && Number(digits) == port
  {
    var n := |HOST_PREFIX|;
    if CenterPort(hostname) == Some(port) {
      var digits := hostname[n..];
      assert hostname == HOST_PREFIX + digits;
    }
    forall digits: string | digits != [] && AllDigits(digits) && hostname == HOST_PREFIX + digits
      ensures hostname[..n] == HOST_PREFIX && hostname[n..] == digits
    {
    }
  }

  /** Printing and reading a port are inverse exactly on the range the guest accepts. */
  lemma HostnameRoundTrip(port: nat)
    ensures CenterPort(Hostname(port)) == Some(port) <==> 1024 < port <= 65535
  {
    NumberOfDecimal(port);
    CenterPortExactly(Hostname(port), port);
  }

  /** The most significant digit comes first. */
  lemma FallbackHostname()
    ensures Hostname(FALLBACK_PORT) == "scaffolding-mc-server-25000"
  {
    assert Decimal(2) == "2" && Decimal(25) == "25" && Decimal(250) == "250";
    assert Decimal(2500) == "2500" && Decimal(25000) == "25000";
  }

  /** The host's port scan. The set of ports that can be bound is arbitrary. */
  method ScanPorts(bindable: set<nat>) returns (port: nat)
    ensures 1025 <= port <= 65534
    ensures (exists p :: 1025 <= p <= 65534 && p in bindable) ==>
              port in bindable && forall p :: 1025 <= p < port ==> p !in bindable
    ensures (forall p :: 1025 <= p <= 65534 ==> p !in bindable) ==> port == FALLBACK_PORT
    ensures CenterPort(Hostname(port)) == Some(port)
  {
    port := FALLBACK_PORT;
    for p := 1025 to 65535
      invariant port == FALLBACK_PORT
      invariant forall q :: 1025 <= q < p ==> q !in bindable
    {
      if p in bindable {
        port := p;
        break;
      }
    }
    HostnameRoundTrip(port);
  }

  /// ## Search

  datatype Node = Node(virtualIp: string, hostname: string)

  datatype Center = Center(virtualIp: string, port: nat)

  /** Node `i` is the first that stands for a center, and `center` is what it says. */
  ghost predicate FirstCenter(nodes: seq<Node>, i: nat, center: Center) {
    && i < |nodes| && CenterPort(nodes[i].hostname) == Some(center.port) && center.virtualIp == nodes[i].virtualIp
    && forall j :: 0 <= j < i ==> CenterPort(nodes[j].hostname).None?
  }

  ghost predicate NoCenter(nodes: seq<Node>) {
    forall i :: 0 <= i < |nodes| ==> CenterPort(nodes[i].hostname).None?
  }

  method TryParseCenter(nodes: seq<Node>) returns (center: Option<Center>)
    ensures center.None? ==> NoCenter(nodes)
    ensures center.Some? ==> exists i :: FirstCenter(nodes, i, center.value)
  {
    for k := 0 to |nodes|
      invariant forall i :: 0 <= i < k ==> CenterPort(nodes[i].hostname).None?
    {
      var port := CenterPort(nodes[k].hostname);
      if port.Some? {
        center := Some(Center(nodes[k].virtualIp, port.value));
        assert FirstCenter(nodes, k, center.value);
        return;
      }
    }
    center := None;
  }

  /** A guest finds what the host printed: when the host's node is in the list and no earlier node names a port
      in range, the search answers with the host's address and port. */
  method FindHost(nodes: seq<Node>, host: nat, port: nat) returns (center: Option<Center>)
    requires host < |nodes| && 1025 <= port <= 65534 && nodes[host].hostname == Hostname(port)
    requires forall j :: 0 <= j < host ==> CenterPort(nodes[j].hostname).None?
    ensures center == Some(Center(nodes[host].virtualIp, port))
  {
    center := TryParseCenter(nodes);
    HostnameRoundTrip(port);
    ghost var expected := Center(nodes[host].virtualIp, port);
    assert FirstCenter(nodes, host, expected);
    ghost var i: nat :| FirstCenter(nodes, i, center.value);
    assert !(i < host) && !(host < i);
  }

  datatype DiscoverError = TimedOut | Cancelled

  /** The polling loop. `scans` are the node lists the attempts will see, `cancelled` says after which attempts
      the pause is cut short by the token. */
  method Discover(scans: seq<seq<Node>>, cancelled: seq<bool>) returns (r: Result<Center, DiscoverError>)
    requires |scans| == |cancelled| == ATTEMPTS
    ensures r.Ok? ==>
              exists k, i :: 0 <= k < ATTEMPTS && FirstCenter(scans[k], i, r.value) && Fruitless(scans, cancelled, k)
    ensures r == Err(TimedOut) ==> Fruitless(scans, cancelled, ATTEMPTS)
    ensures r == Err(Cancelled) ==>
              exists k :: 0 <= k < ATTEMPTS && Fruitless(scans, cancelled, k) && NoCenter(scans[k]) && cancelled[k]
  {
    for attempt := 0 to ATTEMPTS
      invariant Fruitless(scans, cancelled, attempt)
    {
      var found := TryParseCenter(scans[attempt]);
      if found.Some? {
        return Ok(found.value);
      }
      if cancelled[attempt] {
        return Err(Cancelled);
      }
    }
    r := Err(TimedOut);
  }

  /** The first `k` attempts saw no center and were not cancelled. */
  ghost predicate Fruitless(scans: seq<seq<Node>>, cancelled: seq<bool>, k: nat)
    requires k <= |scans| == |cancelled|
  {
    forall j :: 0 <= j < k ==> NoCenter(scans[j]) && !cancelled[j]
  }
}
