/** The BMP load generator: its prefixes, its plan and the message stream it generates lazily. */
module ScaleStream {
  import opened Bytes
  import opened BgpUpdate
  import opened ScaleUpdates

  /** Command-line options; parsing guarantees at least one family, peer and route per batch. */
  datatype ScaleOptions = ScaleOptions(peers: nat, routes: nat, locRibRoutes: nat, families: seq<Family>, batch: nat,
                                       uniquePrefixes: bool, withdrawPercent: nat)
  {
    predicate Parsed() {
      peers >= 1 && batch >= 1 && families != [] && withdrawPercent <= 100
    }
  }

  /** The monitored peer: the last two octets of its address 10.255.x.y, or the Loc-RIB. */
  datatype Peer = Remote(third: nat, fourth: nat) | LocRib

  /** What is sent: a route monitoring message carries an UPDATE, in the octets that `UpdateOctets` gives, and is
      counted as a number of routes, which is negative for a withdrawal. */
  datatype Message =
    | Initiation
    | PeerUp(peer: Peer)
    | RouteMonitoring(peer: Peer, content: Content, routes: int)
    | Statistics(peer: Peer, total: nat, perFamily: seq<nat>)
    | PeerDone(peer: Peer)

  // ------------------------------------------------------ prefix generators

  function GlobalIndex(s: Source, index: nat): nat {
    s.block * s.blockSize + index
  }

  /** Consecutive /24s from 10.0.0.0; beyond 223.255.255.0 the generator refuses. */
  predicate Accepted(s: Source, index: nat) {
    IsIpv4(s.family) ==> 10 + GlobalIndex(s, index) / 65536 <= 223
  }

  function Ipv4Octets(g: nat): (r: seq<byte>)
    ensures |r| == 3
  {
    [(10 + g / 65536) % 256, g / 256 % 256, g % 256]
  }

  function Ipv6Octets(g: nat): (r: seq<byte>)
    ensures |r| == 8
  {
    [0x20, 0x01, 0x01, g / 0x100_0000 % 256, g / 0x1_0000 % 256, g / 256 % 256, g % 256, 0x00]
  }

  function Prefix(s: Source, index: nat): (r: seq<byte>)
    ensures |r| == PrefixOctets(s.family)
  {
    if IsIpv4(s.family) then Ipv4Octets(GlobalIndex(s, index)) else Ipv6Octets(GlobalIndex(s, index))
  }

  function RouteAt(s: Source, index: nat): Route {
    RouteOf(s, Prefix(s, index))
  }

  /** The index range in which prefixes are distinct. */
  predicate InRange(s: Source, index: nat) {
    if IsIpv4(s.family) then Accepted(s, index) else GlobalIndex(s, index) < 0x1_0000_0000
  }

  lemma OctetsDetermine(g: nat, h: nat)
    requires g % 256 == h % 256 && g / 256 % 256 == h / 256 % 256 && g / 65536 == h / 65536
    ensures g == h
  {
    assert g / 65536 == g / 256 / 256 && h / 65536 == h / 256 / 256;
  }

  lemma Ipv4Injective(g: nat, h: nat)
    requires 10 + g / 65536 <= 223 && 10 + h / 65536 <= 223 && Ipv4Octets(g) == Ipv4Octets(h)
    ensures g == h
  {
    var x, y := Ipv4Octets(g), Ipv4Octets(h);
    assert x[0] == y[0] && x[1] == y[1] && x[2] == y[2];
    OctetsDetermine(g, h);
  }

  lemma Ipv6Injective(g: nat, h: nat)
    requires g < 0x1_0000_0000 && h < 0x1_0000_0000 && Ipv6Octets(g) == Ipv6Octets(h)
    ensures g == h
  {
    var x, y := Ipv6Octets(g), Ipv6Octets(h);
    assert x[3] == y[3] && x[4] == y[4] && x[5] == y[5] && x[6] == y[6];
    HighOctets(g, h);
    OctetsDetermine(g, h);
  }

  /** Prefixes of one address family are equal only for equal global indexes, whatever the blocks. */
  lemma PrefixInjective(s: Source, i: nat, t: Source, j: nat)
    requires IsIpv4(s.family) <==> IsIpv4(t.family)
    requires InRange(s, i) && InRange(t, j) && Prefix(s, i) == Prefix(t, j)
    ensures GlobalIndex(s, i) == GlobalIndex(t, j)
  {
    if IsIpv4(s.family) {
      Ipv4Injective(GlobalIndex(s, i), GlobalIndex(t, j));
    } else {
      Ipv6Injective(GlobalIndex(s, i), GlobalIndex(t, j));
    }
  }

  lemma HighOctets(g: nat, h: nat)
    requires g < 0x1_0000_0000 && h < 0x1_0000_0000
    requires g / 0x100_0000 % 256 == h / 0x100_0000 % 256 && g / 0x1_0000 % 256 == h / 0x1_0000 % 256
    ensures g / 0x1_0000 == h / 0x1_0000
  {
    assert g / 0x100_0000 == g / 0x1_0000 / 256 && h / 0x100_0000 == h / 0x1_0000 / 256;
  }

  /** Different blocks never share a prefix: a block is as large as any table. */
  lemma BlocksDisjoint(s: Source, i: nat, t: Source, j: nat)
    requires IsIpv4(s.family) <==> IsIpv4(t.family)
    requires s.blockSize == t.blockSize && i < s.blockSize && j < t.blockSize && s.block != t.block
    requires InRange(s, i) && InRange(t, j)
    ensures Prefix(s, i) != Prefix(t, j)
  {
    if Prefix(s, i) == Prefix(t, j) {
      PrefixInjective(s, i, t, j);
      SeparateBlocks(s.block, t.block, s.blockSize, i, j);
    }
  }

  lemma SeparateBlocks(a: nat, b: nat, size: nat, i: nat, j: nat)
    requires a != b && i < size && j < size
    ensures a * size + i != b * size + j
  {
    if a < b {
      assert (a + 1) * size <= b * size;
    } else {
      assert (b + 1) * size <= a * size;
    }
  }

  // ------------------------------------------------------------------- plan

  function RoutesPerFamily(o: ScaleOptions): nat
    requires o.Parsed()
  {
    o.routes / |o.families|
  }

  function Max(a: nat, b: nat): nat {
    if a < b then b else a
  }

  function PrefixBlockSize(o: ScaleOptions): nat
    requires o.Parsed()
  {
    Max(RoutesPerFamily(o), Max(o.locRibRoutes, 1))
  }

  function WithdrawCount(o: ScaleOptions): nat
    requires o.Parsed()
  {
    RoutesPerFamily(o) * o.withdrawPercent / 100
  }

  function PeerKey(peerIndex: nat): (r: Peer)
    ensures r.Remote? && r.third < 256 && r.fourth < 256
  {
    Remote(peerIndex / 250 % 256, 1 + peerIndex % 250)
  }

  /** Peer AS numbers start here, and each UPDATE of a peer carries the community `peerAs:n`. */
  const FIRST_PEER_AS := 64512

  function PeerShared(peerIndex: nat): Shared {
    var key, asn := PeerKey(peerIndex), FIRST_PEER_AS + peerIndex;
    Shared(Ipv4(10, 255, key.third, key.fourth), peerIndex + 1, [asn, 65100 + peerIndex % 7, 65200 + peerIndex % 13],
           100, Community(asn, 100 + peerIndex % 10), 1000 + peerIndex)
  }

  function LocRibShared(): Shared {
    Shared(Ipv4(10, 255, 255, 1), 1, [65000, 65100], 200, Community(65000, 1), 3000)
  }

  function PeerSource(o: ScaleOptions, peerIndex: nat, f: Family): Source
    requires o.Parsed()
  {
    Source(f, if o.uniquePrefixes then peerIndex else 0, PrefixBlockSize(o),
           (if f.Vpnv4? then 1000 else 2000) + peerIndex, PeerShared(peerIndex))
  }

  function LocRibSource(o: ScaleOptions, f: Family): Source
    requires o.Parsed()
  {
    Source(f, if o.uniquePrefixes then o.peers else 1, PrefixBlockSize(o), 1, LocRibShared())
  }

  datatype Summary = Summary(peerRoutes: nat, locRibRoutes: nat, total: nat)

  function Summarize(o: ScaleOptions): Summary
    requires o.Parsed()
  {
    var peerRoutes := RoutesPerFamily(o) * |o.families| * o.peers;
    var locRibRoutes := o.locRibRoutes * |o.families|;
    Summary(peerRoutes, locRibRoutes, peerRoutes + locRibRoutes)
  }

  ghost predicate PeerInRange(o: ScaleOptions, peerIndex: nat)
    requires o.Parsed()
  {
    forall f, i: nat :: f in o.families && i < RoutesPerFamily(o) ==> InRange(PeerSource(o, peerIndex, f), i)
  }

  ghost predicate LocRibInRange(o: ScaleOptions)
    requires o.Parsed()
  {
    forall f, i: nat :: f in o.families && i < o.locRibRoutes ==> InRange(LocRibSource(o, f), i)
  }

  /** A planned route of the Loc-RIB never has the prefix of a planned route of a peer; with unique prefixes
      neither do routes of two different peers. */
  lemma TablesDoNotOverlap(o: ScaleOptions, p: nat, q: nat, f: Family, g: Family, i: nat, j: nat)
    requires o.Parsed() && p < o.peers && q < o.peers && f in o.families && g in o.families
    requires IsIpv4(f) <==> IsIpv4(g)
    requires PeerInRange(o, p) && PeerInRange(o, q) && LocRibInRange(o)
    requires i < RoutesPerFamily(o)
    ensures j < o.locRibRoutes ==> Prefix(PeerSource(o, p, f), i) != Prefix(LocRibSource(o, g), j)
    ensures o.uniquePrefixes && p != q && j < RoutesPerFamily(o) ==>
              Prefix(PeerSource(o, p, f), i) != Prefix(PeerSource(o, q, g), j)
  {
    if j < o.locRibRoutes {
      BlocksDisjoint(PeerSource(o, p, f), i, LocRibSource(o, g), j);
    }
    if o.uniquePrefixes && p != q && j < RoutesPerFamily(o) {
      BlocksDisjoint(PeerSource(o, p, f), i, PeerSource(o, q, g), j);
    }
  }

  lemma WithdrawAtMostAll(o: ScaleOptions)
    requires o.Parsed()
    ensures WithdrawCount(o) <= RoutesPerFamily(o)
  {
    var n := RoutesPerFamily(o);
    assert n * o.withdrawPercent <= n * 100;
  }

  // ----------------------------------------------------------------- stream

  function Prefixes(s: Source, start: nat, count: nat): (r: seq<seq<byte>>)
    ensures |r| == count && Sized(s.family, r)
  {
    var r := seq(count, i requires 0 <= i < count => Prefix(s, start + i));
    assert forall i :: 0 <= i < count ==> r[i] == Prefix(s, start + i);
    r
  }

  function Min(a: nat, b: nat): nat {
    if a < b then a else b
  }

  function BatchMessage(peer: Peer, s: Source, prefixes: seq<seq<byte>>, withdraw: bool): Message {
    if withdraw then RouteMonitoring(peer, Withdrawn(s, prefixes), -|prefixes|)
    else RouteMonitoring(peer, Announced(s, prefixes), |prefixes|)
  }

  /** The batches of a table from `start` up to `total`, as announcements or withdrawals. */
  function Batches(peer: Peer, s: Source, start: nat, total: nat, batch: nat, withdraw: bool): seq<Message>
    requires batch >= 1
    decreases if start < total then total - start else 0
  {
    if start >= total then []
    else
      var prefixes := Prefixes(s, start, Min(batch, total - start));
      [BatchMessage(peer, s, prefixes, withdraw)] + Batches(peer, s, start + batch, total, batch, withdraw)
  }

  function EndOfRib(peer: Peer, f: Family): Message {
    RouteMonitoring(peer, RibEnd(f), 0)
  }

  function FamilyStream(peer: Peer, s: Source, count: nat, withdrawn: nat, batch: nat): seq<Message>
    requires batch >= 1
  {
    Batches(peer, s, 0, count, batch, false) + [EndOfRib(peer, s.family)] + Batches(peer, s, 0, withdrawn, batch, true)
  }

  function PeerFamilies(o: ScaleOptions, peerIndex: nat, families: seq<Family>): seq<Message>
    requires o.Parsed()
  {
    if families == [] then []
    else FamilyStream(PeerKey(peerIndex), PeerSource(o, peerIndex, families[0]), RoutesPerFamily(o),
                      WithdrawCount(o), o.batch)
         + PeerFamilies(o, peerIndex, families[1..])
  }

  function Repeat(value: nat, times: nat): seq<nat> {
    seq(times, _ => value)
  }

  /** The statistics of a table with `n` routes in each of `families` families. */
  function Report(peer: Peer, n: nat, families: nat): (r: Message)
    ensures r.Statistics? && r.peer == peer
  {
    Statistics(peer, n * families, Repeat(n, families))
  }

  function PeerStream(o: ScaleOptions, peerIndex: nat): seq<Message>
    requires o.Parsed()
  {
    [PeerUp(PeerKey(peerIndex))] + PeerFamilies(o, peerIndex, o.families)
    + [Report(PeerKey(peerIndex), RoutesPerFamily(o), |o.families|)]
  }

  function LocRibFamilies(o: ScaleOptions, families: seq<Family>): seq<Message>
    requires o.Parsed()
  {
    if families == [] then []
    else FamilyStream(LocRib, LocRibSource(o, families[0]), o.locRibRoutes, 0, o.batch)
         + LocRibFamilies(o, families[1..])
  }

  function LocRibStream(o: ScaleOptions): seq<Message>
    requires o.Parsed()
  {
    [PeerUp(LocRib)] + LocRibFamilies(o, o.families)
    + [Report(LocRib, o.locRibRoutes, |o.families|)]
  }

  function PeersStream(o: ScaleOptions, peers: nat): seq<Message>
    requires o.Parsed()
  {
    if peers == 0 then []
    else PeersStream(o, peers - 1) + PeerStream(o, peers - 1) + [PeerDone(PeerKey(peers - 1))]
  }

  function Scenario(o: ScaleOptions): seq<Message>
    requires o.Parsed()
  {
    [Initiation] + PeersStream(o, o.peers) + LocRibStream(o)
  }

  // ------------------------------------------------------------------ counts

  /** The `routes` numbers of a stream, withdrawals counting negative. */
  function RouteSum(messages: seq<Message>): int {
    if messages == [] then 0
    else
      var m := messages[0];
      (if m.RouteMonitoring? then m.routes else 0) + RouteSum(messages[1..])
  }

  lemma {:induction false} RouteSumAppend(a: seq<Message>, b: seq<Message>)
    ensures RouteSum(a + b) == RouteSum(a) + RouteSum(b)
  {
    if a == [] {
      assert a + b == b;
    } else {
      assert (a + b)[1..] == a[1..] + b;
      RouteSumAppend(a[1..], b);
    }
  }

  lemma {:induction false} BatchesSum(peer: Peer, s: Source, start: nat, total: nat, batch: nat, withdraw: bool)
    requires batch >= 1 && start <= total + batch
    ensures RouteSum(Batches(peer, s, start, total, batch, withdraw)) ==
            if start >= total then 0 else if withdraw then start - total else total - start
    decreases if start < total then total - start else 0
  {
    if start < total {
      var m := BatchMessage(peer, s, Prefixes(s, start, Min(batch, total - start)), withdraw);
      var rest := Batches(peer, s, start + batch, total, batch, withdraw);
      assert ([m] + rest)[1..] == rest;
      BatchesSum(peer, s, start + batch, total, batch, withdraw);
    }
  }

  lemma FamilySum(peer: Peer, s: Source, count: nat, withdrawn: nat, batch: nat)
    requires batch >= 1
    ensures RouteSum(FamilyStream(peer, s, count, withdrawn, batch)) == count - withdrawn
  {
    var announces, withdraws := Batches(peer, s, 0, count, batch, false), Batches(peer, s, 0, withdrawn, batch, true);
    RouteSumAppend(announces + [EndOfRib(peer, s.family)], withdraws);
    RouteSumAppend(announces, [EndOfRib(peer, s.family)]);
    BatchesSum(peer, s, 0, count, batch, false);
    BatchesSum(peer, s, 0, withdrawn, batch, true);
  }

  lemma OneMore(each: int, n: nat)
    ensures each * (n + 1) == each + each * n
  {
  }

  /** `each` added up `times` times. */
  function Total(each: int, times: nat): int {
    if times == 0 then 0 else each + Total(each, times - 1)
  }

  lemma {:induction false} TotalIsProduct(each: int, times: nat)
    ensures Total(each, times) == each * times
  {
    if times > 0 {
      TotalIsProduct(each, times - 1);
      OneMore(each, times - 1);
    }
  }

  lemma {:induction false} PeerFamiliesSum(o: ScaleOptions, p: nat, families: seq<Family>)
    requires o.Parsed()
    ensures RouteSum(PeerFamilies(o, p, families)) == Total(RoutesPerFamily(o) - WithdrawCount(o), |families|)
  {
    if families != [] {
      var s, n, w := PeerSource(o, p, families[0]), RoutesPerFamily(o), WithdrawCount(o);
      FamilySum(PeerKey(p), s, n, w, o.batch);
      RouteSumAppend(FamilyStream(PeerKey(p), s, n, w, o.batch), PeerFamilies(o, p, families[1..]));
      PeerFamiliesSum(o, p, families[1..]);
    }
  }

  lemma SumBetween(first: Message, middle: seq<Message>, last: Message)
    requires !first.RouteMonitoring? && !last.RouteMonitoring?
    ensures RouteSum([first] + middle + [last]) == RouteSum(middle)
  {
    RouteSumAppend([first] + middle, [last]);
    RouteSumAppend([first], middle);
  }

  lemma SumThen(a: seq<Message>, b: seq<Message>, last: Message)
    requires !last.RouteMonitoring?
    ensures RouteSum(a + b + [last]) == RouteSum(a) + RouteSum(b)
  {
    RouteSumAppend(a + b, [last]);
    RouteSumAppend(a, b);
  }

  lemma PeerSum(o: ScaleOptions, p: nat)
    requires o.Parsed()
    ensures RouteSum(PeerStream(o, p)) == Total(RoutesPerFamily(o) - WithdrawCount(o), |o.families|)
  {
    PeerFamiliesSum(o, p, o.families);
    SumBetween(PeerUp(PeerKey(p)), PeerFamilies(o, p, o.families),
               Report(PeerKey(p), RoutesPerFamily(o), |o.families|));
  }

  lemma {:induction false} PeersSum(o: ScaleOptions, n: nat, each: int)
    requires o.Parsed() && each == Total(RoutesPerFamily(o) - WithdrawCount(o), |o.families|)
    ensures RouteSum(PeersStream(o, n)) == Total(each, n)
  {
    if n > 0 {
      PeersSum(o, n - 1, each);
      PeerSum(o, n - 1);
      SumThen(PeersStream(o, n - 1), PeerStream(o, n - 1), PeerDone(PeerKey(n - 1)));
    }
  }

  lemma {:induction false} LocRibFamiliesSum(o: ScaleOptions, families: seq<Family>)
    requires o.Parsed()
    ensures RouteSum(LocRibFamilies(o, families)) == Total(o.locRibRoutes, |families|)
  {
    if families != [] {
      var s := LocRibSource(o, families[0]);
      FamilySum(LocRib, s, o.locRibRoutes, 0, o.batch);
      RouteSumAppend(FamilyStream(LocRib, s, o.locRibRoutes, 0, o.batch), LocRibFamilies(o, families[1..]));
      LocRibFamiliesSum(o, families[1..]);
    }
  }

  lemma LocRibSum(o: ScaleOptions)
    requires o.Parsed()
    ensures RouteSum(LocRibStream(o)) == Total(o.locRibRoutes, |o.families|)
  {
    LocRibFamiliesSum(o, o.families);
    SumBetween(PeerUp(LocRib), LocRibFamilies(o, o.families), Report(LocRib, o.locRibRoutes, |o.families|));
  }

  lemma SumParts(peers: seq<Message>, locRib: seq<Message>)
    ensures RouteSum([Initiation] + peers + locRib) == RouteSum(peers) + RouteSum(locRib)
  {
    RouteSumAppend([Initiation] + peers, locRib);
    RouteSumAppend([Initiation], peers);
  }

  lemma ScenarioParts(o: ScaleOptions, kept: int)
    requires o.Parsed() && kept == RoutesPerFamily(o) - WithdrawCount(o)
    ensures RouteSum(Scenario(o)) == Total(Total(kept, |o.families|), o.peers) + Total(o.locRibRoutes, |o.families|)
  {
    PeersSum(o, o.peers, Total(kept, |o.families|));
    LocRibSum(o);
    SumParts(PeersStream(o, o.peers), LocRibStream(o));
  }

  /** The route numbers add up to the announced total less what is withdrawn from each peer and family. */
  lemma ScenarioSum(o: ScaleOptions)
    requires o.Parsed()
    ensures RouteSum(Scenario(o)) == Summarize(o).total - WithdrawCount(o) * |o.families| * o.peers
  {
    ScenarioParts(o, RoutesPerFamily(o) - WithdrawCount(o));
    AddedUp(RouteSum(Scenario(o)), RoutesPerFamily(o), WithdrawCount(o), |o.families|, o.peers, o.locRibRoutes);
  }

  lemma AddedUp(sum: int, n: int, w: int, f: nat, p: nat, l: int)
    requires sum == Total(Total(n - w, f), p) + Total(l, f)
    ensures sum == n * f * p + l * f - w * f * p
  {
    TotalIsProduct(n - w, f);
    TotalIsProduct((n - w) * f, p);
    TotalIsProduct(l, f);
    Distribute(n, w, f, p);
  }

  lemma Distribute(n: int, w: int, f: int, p: int)
    ensures (n - w) * f * p == n * f * p - w * f * p
  {
    assert (n - w) * f == n * f - w * f;
    assert (n * f - w * f) * p == n * f * p - w * f * p;
  }
}
