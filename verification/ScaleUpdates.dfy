/** The UPDATE messages of the BMP load generator, octet by octet, and what a receiver reads out of them. */
module ScaleUpdates {
  import opened Options
  import opened Bytes
  import opened BgpStream
  import opened BgpUpdate

  datatype Family = Ipv4Unicast | Ipv6Unicast | Vpnv4 | Vpnv6

  /** A table key: a route distinguisher for VPN families, the prefix length and the prefix octets. */
  datatype Route = Route(rd: Option<seq<byte>>, bits: nat, prefix: seq<byte>)

  /** What all announcements of a table share; `host6` is the last group of the IPv6 next hop. */
  datatype Shared = Shared(nextHop4: Ipv4, host6: nat, asns: seq<nat>, localPref: nat, community: Community,
                           mpls: nat)

  /** Where a table's prefixes come from: a block of indexes, the number the distinguisher assigns, and the
      attributes. */
  datatype Source = Source(family: Family, block: nat, blockSize: nat, rdNumber: nat, shared: Shared)

  predicate IsIpv4(f: Family) {
    f.Ipv4Unicast? || f.Vpnv4?
  }

  predicate IsVpn(f: Family) {
    f.Vpnv4? || f.Vpnv6?
  }

  function Afi(f: Family): nat {
    if IsIpv4(f) then 1 else 2
  }

  function Safi(f: Family): byte {
    if IsVpn(f) then 128 else 1
  }

  function PrefixOctets(f: Family): nat {
    if IsIpv4(f) then 3 else 8
  }

  // ---------------------------------------------------------------- building

  const NO_LABEL := 0x80000
  const RD_AS2 := 0
  const RD_ASN := 65000

  /** A 20-bit label with the bottom-of-stack bit set. */
  function LabelBytes(mpls: nat): (r: seq<byte>)
    ensures |r| == 3
  {
    var value := mpls * 16 + 1;
    [value / 0x1_0000 % 256, value / 256 % 256, value % 256]
  }

  function Rd(rdNumber: nat): (r: seq<byte>)
    ensures |r| == 8
  {
    U16(RD_AS2) + U16(RD_ASN) + U32(rdNumber)
  }

  /** 2001:db8:ff::host. */
  function NextHop6(host: nat): (r: seq<byte>)
    ensures |r| == 16
  {
    [0x20, 0x01, 0x0d, 0xb8, 0x00, 0xff, 0, 0, 0, 0, 0, 0, 0, 0] + U16(host)
  }

  function NextHop(s: Source): seq<byte> {
    match s.family
    case Ipv4Unicast => IpBytes(s.shared.nextHop4)
    case Ipv6Unicast => NextHop6(s.shared.host6)
    case Vpnv4 => [0, 0, 0, 0, 0, 0, 0, 0] + IpBytes(s.shared.nextHop4)
    case Vpnv6 => [0, 0, 0, 0, 0, 0, 0, 0] + NextHop6(s.shared.host6)
  }

  predicate Sized(f: Family, prefixes: seq<seq<byte>>) {
    forall i :: 0 <= i < |prefixes| ==> |prefixes[i]| == PrefixOctets(f)
  }

  function NlriOf(s: Source, prefix: seq<byte>, mpls: nat): Nlri {
    match s.family
    case Ipv4Unicast => Nlri(None, 24, prefix)
    case Ipv6Unicast => Nlri(None, 64, prefix)
    case Vpnv4 => Nlri(None, 24 + 64 + 24, LabelBytes(mpls) + Rd(s.rdNumber) + prefix)
    case Vpnv6 => Nlri(None, 24 + 64 + 64, LabelBytes(mpls) + Rd(s.rdNumber) + prefix)
  }

  function NlrisOf(s: Source, prefixes: seq<seq<byte>>, mpls: nat): seq<Nlri> {
    seq(|prefixes|, i requires 0 <= i < |prefixes| => NlriOf(s, prefixes[i], mpls))
  }

  /** The addresses of the prefixes, which the generator passes on in text form. */
  function Addresses(prefixes: seq<seq<byte>>): seq<Ipv4>
    requires forall i :: 0 <= i < |prefixes| ==> |prefixes[i]| == 3
  {
    seq(|prefixes|, i requires 0 <= i < |prefixes| => Ipv4(prefixes[i][0], prefixes[i][1], prefixes[i][2], 0))
  }

  function Ipv4Options(s: Source): RouteOptions {
    RouteOptions(s.shared.nextHop4, s.shared.asns, s.shared.localPref, [s.shared.community], false, 1000)
  }

  function Reach(s: Source, prefixes: seq<seq<byte>>): MpReach {
    MpReach(Afi(s.family), Safi(s.family), NextHop(s), EncodeNlris(NlrisOf(s, prefixes, s.shared.mpls)))
  }

  /** The UPDATE announcing the prefixes; nothing if the community is out of range. */
  function Announcement(s: Source, prefixes: seq<seq<byte>>): Option<seq<byte>>
    requires Sized(s.family, prefixes)
  {
    if s.family.Ipv4Unicast? then Ipv4Update(Addresses(prefixes), Ipv4Options(s))
    else MultiprotocolUpdate(Reach(s, prefixes), Some(s.shared.localPref), [s.shared.community],
                             [AsPathAttr(s.shared.asns)])
  }

  function Unreach(s: Source, prefixes: seq<seq<byte>>): seq<byte> {
    MpUnreachValue(Afi(s.family), Safi(s.family), EncodeNlris(NlrisOf(s, prefixes, NO_LABEL)))
  }

  /** An attribute with a two-octet length, however short its value. */
  function LongAttr(value: seq<byte>): seq<byte> {
    [OPTIONAL + 16, MP_UNREACH_NLRI] + U16(|value|) + value
  }

  /** The UPDATE withdrawing the prefixes. */
  function Withdrawal(s: Source, prefixes: seq<seq<byte>>): seq<byte>
    requires Sized(s.family, prefixes)
  {
    if s.family.Ipv4Unicast? then Ipv4Withdraw(Addresses(prefixes))
    else
      var attr := LongAttr(Unreach(s, prefixes));
      BgpPacket(UPDATE, U16(0) + U16(|attr|) + attr)
  }

  function EndOfRibUpdate(f: Family): seq<byte> {
    if f.Ipv4Unicast? then BgpPacket(UPDATE, U16(0) + U16(0)) else MultiprotocolWithdraw(Afi(f), Safi(f), [])
  }

  /** What an UPDATE of the generator is about. */
  datatype Content =
    | Announced(s: Source, prefixes: seq<seq<byte>>)
    | Withdrawn(s: Source, prefixes: seq<seq<byte>>)
    | RibEnd(family: Family)

  /** The octets of the UPDATE; a refused community ends the stream, so its announcement does not matter. */
  function UpdateOctets(c: Content): seq<byte> {
    match c
    case Announced(s, prefixes) =>
      if !Sized(s.family, prefixes) || Announcement(s, prefixes).None? then [] else Announcement(s, prefixes).value
    case Withdrawn(s, prefixes) => if !Sized(s.family, prefixes) then [] else Withdrawal(s, prefixes)
    case RibEnd(family) => EndOfRibUpdate(family)
  }

  // ----------------------------------------------------------------- reading

  /** Routes of one family that an UPDATE adds or takes away. */
  datatype Move = Move(family: Family, withdraw: bool, routes: seq<Route>)

  function FamilyOf(afi: nat, safi: byte): Option<Family> {
    if afi == 1 && safi == 1 then Some(Ipv4Unicast)
    else if afi == 2 && safi == 1 then Some(Ipv6Unicast)
    else if afi == 1 && safi == 128 then Some(Vpnv4)
    else if afi == 2 && safi == 128 then Some(Vpnv6)
    else None
  }

  /** A VPN route starts with three octets of label and eight of distinguisher. */
  function ReadRoute(f: Family, n: Nlri): Option<Route> {
    if !IsVpn(f) then Some(Route(None, n.bits, n.octets))
    else if n.bits < 88 || |n.octets| < 11 then None
    else Some(Route(Some(n.octets[3..11]), n.bits - 88, n.octets[11..]))
  }

  function ReadRoutes(f: Family, list: seq<Nlri>): Option<seq<Route>> {
    if list == [] then Some([])
    else
      var first, rest := ReadRoute(f, list[0]), ReadRoutes(f, list[1..]);
      if first.None? || rest.None? then None else Some([first.value] + rest.value)
  }

  function ReadMove(f: Family, withdraw: bool, list: seq<Nlri>): Option<seq<Move>> {
    var routes := ReadRoutes(f, list);
    if routes.None? then None else if routes.value == [] then Some([]) else Some([Move(f, withdraw, routes.value)])
  }

  function ReadNlri(f: Option<Family>, withdraw: bool, nlri: seq<byte>): Option<seq<Move>> {
    if f.None? then Some([])
    else
      var list := DecodeNlris(nlri, false);
      if list.None? then None else ReadMove(f.value, withdraw, list.value)
  }

  function ReadAttr(a: Attribute): Option<seq<Move>> {
    if a.kind == MP_REACH_NLRI then
      var m := DecodeMpReach(a.value);
      if m.None? then None else ReadNlri(FamilyOf(m.value.afi, m.value.safi), false, m.value.nlri)
    else if a.kind == MP_UNREACH_NLRI then
      var m := DecodeMpUnreach(a.value);
      if m.None? then None else ReadNlri(FamilyOf(m.value.0, m.value.1), true, m.value.2)
    else Some([])
  }

  function Both(a: Option<seq<Move>>, b: Option<seq<Move>>): Option<seq<Move>> {
    if a.None? || b.None? then None
    else if a.value == [] then b
    else if b.value == [] then a
    else Some(a.value + b.value)
  }

  function ReadAttrs(attrs: seq<Attribute>): Option<seq<Move>> {
    if attrs == [] then Some([]) else Both(ReadAttr(attrs[0]), ReadAttrs(attrs[1..]))
  }

  /** What a receiver takes from an UPDATE: nothing at all if it cannot be decoded. */
  function ReadUpdate(packet: seq<byte>): Option<seq<Move>> {
    var u := DecodeUpdate(packet, false);
    if u.None? then None
    else Both(Both(ReadMove(Ipv4Unicast, true, u.value.withdrawn), ReadAttrs(u.value.attrs)),
              ReadMove(Ipv4Unicast, false, u.value.nlris))
  }

  // ---------------------------------------------------------- routes in order

  function RouteOf(s: Source, prefix: seq<byte>): Route {
    Route(if IsVpn(s.family) then Some(Rd(s.rdNumber)) else None, 8 * PrefixOctets(s.family), prefix)
  }

  function RoutesOf(s: Source, prefixes: seq<seq<byte>>): seq<Route> {
    seq(|prefixes|, i requires 0 <= i < |prefixes| => RouteOf(s, prefixes[i]))
  }

  lemma RouteReadBack(s: Source, prefix: seq<byte>, mpls: nat)
    ensures ReadRoute(s.family, NlriOf(s, prefix, mpls)) == Some(RouteOf(s, prefix))
  {
    if IsVpn(s.family) {
      var octets := LabelBytes(mpls) + Rd(s.rdNumber) + prefix;
      assert octets[3..11] == Rd(s.rdNumber) && octets[11..] == prefix;
    }
  }

  lemma {:induction false} RoutesReadBack(s: Source, prefixes: seq<seq<byte>>, mpls: nat)
    ensures ReadRoutes(s.family, NlrisOf(s, prefixes, mpls)) == Some(RoutesOf(s, prefixes))
  {
    if prefixes == [] {
      assert NlrisOf(s, prefixes, mpls) == [] && RoutesOf(s, prefixes) == [];
    } else {
      var rest := prefixes[1..];
      assert NlrisOf(s, prefixes, mpls)[1..] == NlrisOf(s, rest, mpls);
      RouteReadBack(s, prefixes[0], mpls);
      RoutesReadBack(s, rest, mpls);
      assert RoutesOf(s, prefixes) == [RouteOf(s, prefixes[0])] + RoutesOf(s, rest);
    }
  }

  lemma MoveReadBack(s: Source, prefixes: seq<seq<byte>>, mpls: nat, withdraw: bool)
    requires prefixes != []
    ensures ReadMove(s.family, withdraw, NlrisOf(s, prefixes, mpls))
            == Some([Move(s.family, withdraw, RoutesOf(s, prefixes))])
  {
    RoutesReadBack(s, prefixes, mpls);
  }

  lemma NlriReadBack(s: Source, prefixes: seq<seq<byte>>, mpls: nat, withdraw: bool)
    requires prefixes != [] && Sized(s.family, prefixes)
    ensures ReadNlri(FamilyOf(Afi(s.family), Safi(s.family)), withdraw, EncodeNlris(NlrisOf(s, prefixes, mpls)))
            == Some([Move(s.family, withdraw, RoutesOf(s, prefixes))])
  {
    NlrisRoundTrip(NlrisOf(s, prefixes, mpls), false);
    MoveReadBack(s, prefixes, mpls, withdraw);
  }

  // ----------------------------------------------------------------- lengths

  /** The octets one route takes. */
  function NlriSize(f: Family): nat {
    match f
    case Ipv4Unicast => 4
    case Ipv6Unicast => 9
    case Vpnv4 => 15
    case Vpnv6 => 20
  }

  lemma OneMoreRoute(size: nat, n: nat)
    ensures size * (n + 1) == size + size * n
  {
  }

  lemma {:induction false} EncodedLength(list: seq<Nlri>, size: nat)
    requires forall n :: n in list ==> |EncodeNlri(n)| == size
    ensures |EncodeNlris(list)| == size * |list|
  {
    if list != [] {
      EncodedLength(list[1..], size);
      OneMoreRoute(size, |list| - 1);
    }
  }

  lemma NlrisLength(s: Source, prefixes: seq<seq<byte>>, mpls: nat)
    requires Sized(s.family, prefixes)
    ensures |EncodeNlris(NlrisOf(s, prefixes, mpls))| == NlriSize(s.family) * |prefixes|
  {
    EncodedLength(NlrisOf(s, prefixes, mpls), NlriSize(s.family));
  }

  /** The octets of an UPDATE besides its routes, for a path of `hops` AS numbers. */
  function Overhead(f: Family, hops: nat, withdraw: bool): nat {
    if withdraw then (if f.Ipv4Unicast? then 23 else 30)
    else
      4 * hops + match f
        case Ipv4Unicast => 53
        case Ipv6Unicast => 71
        case Vpnv4 => 67
        case Vpnv6 => 79
  }

  /** How many routes an UPDATE can carry before its 16-bit length wraps. */
  function Capacity(f: Family, hops: nat, withdraw: bool): nat
    requires hops <= 63
  {
    (65535 - Overhead(f, hops, withdraw)) / NlriSize(f)
  }

  lemma FitsIff(f: Family, hops: nat, withdraw: bool, n: nat)
    requires hops <= 63
    ensures n <= Capacity(f, hops, withdraw) <==> Overhead(f, hops, withdraw) + NlriSize(f) * n <= 65535
  {
    Divided(65535 - Overhead(f, hops, withdraw), NlriSize(f), n);
  }

  lemma Divided(limit: nat, size: nat, n: nat)
    requires size > 0
    ensures n <= limit / size <==> size * n <= limit
  {
    var q, r := limit / size, limit % size;
    assert limit == size * q + r;
    if n <= q {
      assert size * n <= size * q;
    } else {
      assert size * n >= size * (q + 1) == size * q + size;
    }
  }

  /** The capacities in numbers: peers announce a path of three AS numbers, the Loc-RIB one of two. */
  lemma Capacities()
    ensures Capacity(Ipv4Unicast, 3, false) == 16367 && Capacity(Ipv6Unicast, 3, false) == 7272
    ensures Capacity(Vpnv4, 3, false) == 4363 && Capacity(Vpnv6, 3, false) == 3272
    ensures Capacity(Ipv4Unicast, 2, false) == 16368 && Capacity(Ipv6Unicast, 2, false) == 7272
    ensures Capacity(Vpnv4, 2, false) == 4364 && Capacity(Vpnv6, 2, false) == 3272
    ensures forall hops: nat :: hops <= 63 ==>
              && Capacity(Ipv4Unicast, hops, true) == 16378 && Capacity(Ipv6Unicast, hops, true) == 7278
              && Capacity(Vpnv4, hops, true) == 4367 && Capacity(Vpnv6, hops, true) == 3275
  {
  }

  lemma FiveAttrs(attrs: seq<Attribute>)
    requires |attrs| == 5
    ensures |PathAttrs(attrs)| == |PathAttr(attrs[0])| + |PathAttr(attrs[1])| + |PathAttr(attrs[2])|
                                  + |PathAttr(attrs[3])| + |PathAttr(attrs[4])|
  {
    FiveInARow(attrs);
    AttrsCons(attrs[4], []);
    AttrsCons(attrs[3], [attrs[4]] + []);
    AttrsCons(attrs[2], [attrs[3]] + ([attrs[4]] + []));
    AttrsCons(attrs[1], [attrs[2]] + ([attrs[3]] + ([attrs[4]] + [])));
    AttrsCons(attrs[0], [attrs[1]] + ([attrs[2]] + ([attrs[3]] + ([attrs[4]] + []))));
  }

  lemma AttrsCons(a: Attribute, rest: seq<Attribute>)
    ensures PathAttrs([a] + rest) == PathAttr(a) + PathAttrs(rest)
    ensures ReadAttrs([a] + rest) == Both(ReadAttr(a), ReadAttrs(rest))
  {
    assert ([a] + rest)[1..] == rest;
  }

  /** What both kinds of announcement carry, in octets. */
  lemma SharedLengths(a: Shared)
    requires |a.asns| <= 63 && CommunityOk(a.community)
    ensures |PathAttr(Attribute(TRANSITIVE, ORIGIN, [0]))| == 4
    ensures |PathAttr(AsPathAttr(a.asns))| == 5 + 4 * |a.asns|
    ensures |PathAttr(Attribute(TRANSITIVE, NEXT_HOP, IpBytes(a.nextHop4)))| == 7
    ensures |PathAttr(Attribute(TRANSITIVE, LOCAL_PREF, U32(a.localPref)))| == 7
    ensures CommunitiesAttr([a.community]).Some? && |PathAttr(CommunitiesAttr([a.community]).value)| == 7
  {
    U32sLength(a.asns);
    CommunityBytesLength([a.community]);
  }

  lemma Ipv4NlrisAre(s: Source, prefixes: seq<seq<byte>>)
    requires s.family.Ipv4Unicast? && Sized(s.family, prefixes)
    ensures Ipv4Nlris(Addresses(prefixes), Ipv4Options(s)) == NlrisOf(s, prefixes, s.shared.mpls)
  {
    var xs, ys := Ipv4Nlris(Addresses(prefixes), Ipv4Options(s)), NlrisOf(s, prefixes, s.shared.mpls);
    forall i | 0 <= i < |prefixes| ensures xs[i] == ys[i] {
      assert [prefixes[i][0], prefixes[i][1], prefixes[i][2]] == prefixes[i];
    }
  }

  lemma Ipv4AnnouncementLength(s: Source, prefixes: seq<seq<byte>>)
    requires s.family.Ipv4Unicast? && Sized(s.family, prefixes)
    requires |s.shared.asns| <= 63 && CommunityOk(s.shared.community)
    ensures Announcement(s, prefixes).Some?
    ensures |Announcement(s, prefixes).value| == Overhead(s.family, |s.shared.asns|, false) + 4 * |prefixes|
  {
    var a := s.shared;
    SharedLengths(a);
    var attrs := [Attribute(TRANSITIVE, ORIGIN, [0]), AsPathAttr(a.asns),
                  Attribute(TRANSITIVE, NEXT_HOP, IpBytes(a.nextHop4)),
                  Attribute(TRANSITIVE, LOCAL_PREF, U32(a.localPref)), CommunitiesAttr([a.community]).value];
    assert Ipv4Attrs(Ipv4Options(s)) == Some(attrs) by {
      assert attrs == [attrs[0], attrs[1], attrs[2], attrs[3]] + [attrs[4]];
    }
    FiveAttrs(attrs);
    Ipv4NlrisAre(s, prefixes);
    NlrisLength(s, prefixes, a.mpls);
  }

  /** Above 255 octets of value the reachability attribute has one more octet of length; the message is then still
      far from the limit. */
  lemma MpAnnouncementLength(s: Source, prefixes: seq<seq<byte>>)
    requires !s.family.Ipv4Unicast? && Sized(s.family, prefixes)
    requires |s.shared.asns| <= 63 && CommunityOk(s.shared.community)
    ensures Announcement(s, prefixes).Some?
    ensures var full := Overhead(s.family, |s.shared.asns|, false) + NlriSize(s.family) * |prefixes|;
            var length := |Announcement(s, prefixes).value|;
            length == full || (length == full - 1 && full <= 65535)
  {
    var a := s.shared;
    SharedLengths(a);
    MpAttrsAre(s, prefixes);
    ReachLength(s, prefixes);
    FiveAttrs(MpAttrs(s, prefixes));
  }

  function MpAttrs(s: Source, prefixes: seq<seq<byte>>): (r: seq<Attribute>)
    requires CommunityOk(s.shared.community)
    ensures |r| == 5
  {
    [Attribute(TRANSITIVE, ORIGIN, [0]), Attribute(OPTIONAL, MP_REACH_NLRI, MpReachValue(Reach(s, prefixes))),
     AsPathAttr(s.shared.asns), Attribute(TRANSITIVE, LOCAL_PREF, U32(s.shared.localPref)),
     CommunitiesAttr([s.shared.community]).value]
  }

  lemma MpAttrsAre(s: Source, prefixes: seq<seq<byte>>)
    requires CommunityOk(s.shared.community)
    ensures MultiprotocolAttrs(Reach(s, prefixes), Some(s.shared.localPref), [s.shared.community],
                               [AsPathAttr(s.shared.asns)])
            == Some(MpAttrs(s, prefixes))
  {
    var attrs := MpAttrs(s, prefixes);
    assert [attrs[0], attrs[1]] + [attrs[2]] + [attrs[3]] + [attrs[4]] == attrs;
  }

  lemma ReachLength(s: Source, prefixes: seq<seq<byte>>)
    requires Sized(s.family, prefixes)
    ensures var value := MpReachValue(Reach(s, prefixes));
            && |value| == 5 + |NextHop(s)| + NlriSize(s.family) * |prefixes|
            && |PathAttr(Attribute(OPTIONAL, MP_REACH_NLRI, value))| == |value| + if |value| > 255 then 4 else 3
  {
    NlrisLength(s, prefixes, s.shared.mpls);
  }

  lemma WithdrawalLength(s: Source, prefixes: seq<seq<byte>>, hops: nat)
    requires Sized(s.family, prefixes)
    ensures |Withdrawal(s, prefixes)| == Overhead(s.family, hops, true) + NlriSize(s.family) * |prefixes|
  {
    if s.family.Ipv4Unicast? {
      Ipv4WithdrawnAre(s, prefixes);
    }
    NlrisLength(s, prefixes, NO_LABEL);
  }

  lemma Ipv4WithdrawnAre(s: Source, prefixes: seq<seq<byte>>)
    requires s.family.Ipv4Unicast? && Sized(s.family, prefixes)
    ensures var xs := Addresses(prefixes);
            seq(|xs|, i requires 0 <= i < |xs| => Ipv4Nlri(xs[i], None)) == NlrisOf(s, prefixes, NO_LABEL)
  {
    var xs, ys := Addresses(prefixes), NlrisOf(s, prefixes, NO_LABEL);
    forall i | 0 <= i < |prefixes| ensures Ipv4Nlri(xs[i], None) == ys[i] {
      assert [prefixes[i][0], prefixes[i][1], prefixes[i][2]] == prefixes[i];
    }
  }

  // ------------------------------------------------------------- round trips

  lemma OverlongIsUnreadable(body: seq<byte>)
    requires BGP_HEAD_LEN + |body| > 65535
    ensures ReadUpdate(BgpPacket(UPDATE, body)) == None
  {
    PacketHeader(UPDATE, body, []);
    assert BgpPacket(UPDATE, body) + [] == BgpPacket(UPDATE, body);
  }

  lemma {:induction false} ReadSilent(attrs: seq<Attribute>)
    requires forall a :: a in attrs ==> ReadAttr(a) == Some([])
    ensures ReadAttrs(attrs) == Some([])
  {
    if attrs != [] {
      ReadSilent(attrs[1..]);
    }
  }

  /** Of the attributes only the second moves anything. */
  lemma ReadSecond(attrs: seq<Attribute>, moves: seq<Move>)
    requires |attrs| >= 2 && ReadAttr(attrs[0]) == Some([]) && ReadAttr(attrs[1]) == Some(moves)
    requires forall a :: a in attrs[2..] ==> ReadAttr(a) == Some([])
    ensures ReadAttrs(attrs) == Some(moves)
  {
    ReadSilent(attrs[2..]);
    assert attrs[1..][1..] == attrs[2..];
  }

  lemma FiveInARow(attrs: seq<Attribute>)
    requires |attrs| == 5
    ensures attrs == [attrs[0]] + ([attrs[1]] + ([attrs[2]] + ([attrs[3]] + ([attrs[4]] + []))))
  {
  }

  lemma ReadsAs(packet: seq<byte>, attrs: seq<Attribute>, moves: seq<Move>)
    requires DecodeUpdate(packet, false) == Some(Update([], attrs, [])) && ReadAttrs(attrs) == Some(moves)
    ensures ReadUpdate(packet) == Some(moves)
  {
    assert [] + moves + [] == moves;
  }

  lemma Ipv4AnnouncementReads(s: Source, prefixes: seq<seq<byte>>)
    requires s.family.Ipv4Unicast? && Sized(s.family, prefixes) && prefixes != []
    requires |s.shared.asns| <= 63 && CommunityOk(s.shared.community)
    requires Announcement(s, prefixes).Some? && |Announcement(s, prefixes).value| <= 65535
    ensures ReadUpdate(Announcement(s, prefixes).value) == Some([Move(s.family, false, RoutesOf(s, prefixes))])
  {
    var o, a := Ipv4Options(s), s.shared;
    SharedLengths(a);
    Ipv4UpdateRoundTrip(Addresses(prefixes), o);
    Ipv4NlrisAre(s, prefixes);
    MoveReadBack(s, prefixes, a.mpls, false);
    var attrs := Ipv4Attrs(o).value;
    Ipv4AttrsRead(o, attrs);
    var move := [Move(s.family, false, RoutesOf(s, prefixes))];
    assert [] + [] + move == move;
  }

  lemma Ipv4AttrsRead(o: RouteOptions, attrs: seq<Attribute>)
    requires Ipv4Attrs(o) == Some(attrs) && |attrs| == 5
    ensures ReadAttrs(attrs) == Some([])
  {
    ReadSilent(attrs);
  }

  lemma MpAnnouncementReads(s: Source, prefixes: seq<seq<byte>>)
    requires !s.family.Ipv4Unicast? && Sized(s.family, prefixes) && prefixes != []
    requires |s.shared.asns| <= 63 && CommunityOk(s.shared.community)
    requires Announcement(s, prefixes).Some? && |Announcement(s, prefixes).value| <= 65535
    ensures ReadUpdate(Announcement(s, prefixes).value) == Some([Move(s.family, false, RoutesOf(s, prefixes))])
  {
    var a, m := s.shared, Reach(s, prefixes);
    SharedLengths(a);
    U32sLength(a.asns);
    MultiprotocolRoundTrip(m, Some(a.localPref), [a.community], [AsPathAttr(a.asns)]);
    var attrs := MultiprotocolAttrs(m, Some(a.localPref), [a.community], [AsPathAttr(a.asns)]).value;
    ReachReads(s, prefixes, attrs);
    ReadsAs(Announcement(s, prefixes).value, attrs, [Move(s.family, false, RoutesOf(s, prefixes))]);
  }

  lemma ReachReads(s: Source, prefixes: seq<seq<byte>>, attrs: seq<Attribute>)
    requires Sized(s.family, prefixes) && prefixes != [] && CommunityOk(s.shared.community)
    requires Some(attrs) == MultiprotocolAttrs(Reach(s, prefixes), Some(s.shared.localPref), [s.shared.community],
                                               [AsPathAttr(s.shared.asns)])
    requires DecodeMpReach(attrs[1].value) == Some(Reach(s, prefixes))
    ensures ReadAttrs(attrs) == Some([Move(s.family, false, RoutesOf(s, prefixes))])
  {
    NlriReadBack(s, prefixes, s.shared.mpls, false);
    ReadSecond(attrs, [Move(s.family, false, RoutesOf(s, prefixes))]);
  }

  lemma LongAttrDecodes(value: seq<byte>)
    requires |value| <= 65535
    ensures DecodeAttrs(LongAttr(value)) == Some([Attribute(OPTIONAL, MP_UNREACH_NLRI, value)])
  {
    SmallU16(|value|);
    var s := LongAttr(value);
    assert s[2] == U16(|value|)[0] && s[3] == U16(|value|)[1];
    assert HeaderLength(s) == 4 && ValueLength(s) == |value|;
    assert s[4..4 + |value|] == value && s[4 + |value|..] == [];
    assert [Attribute(OPTIONAL, MP_UNREACH_NLRI, value)] + [] == [Attribute(OPTIONAL, MP_UNREACH_NLRI, value)];
  }

  lemma ReadOneAttr(a: Attribute)
    ensures ReadAttrs([a]) == ReadAttr(a)
  {
    assert [a][1..] == [];
    if ReadAttr(a).Some? {
      assert ReadAttr(a).value + [] == ReadAttr(a).value;
    }
  }

  lemma MpWithdrawalReads(s: Source, prefixes: seq<seq<byte>>)
    requires !s.family.Ipv4Unicast? && Sized(s.family, prefixes) && prefixes != []
    requires |Withdrawal(s, prefixes)| <= 65535
    ensures ReadUpdate(Withdrawal(s, prefixes)) == Some([Move(s.family, true, RoutesOf(s, prefixes))])
  {
    var value := Unreach(s, prefixes);
    var attr, a := LongAttr(value), Attribute(OPTIONAL, MP_UNREACH_NLRI, value);
    LongAttrDecodes(value);
    AttrsOnly(attr, [a]);
    UnreachReads(s.family, EncodeNlris(NlrisOf(s, prefixes, NO_LABEL)));
    NlriReadBack(s, prefixes, NO_LABEL, true);
    ReadsAs(Withdrawal(s, prefixes), [a], [Move(s.family, true, RoutesOf(s, prefixes))]);
  }

  lemma ReadUnreach(a: Attribute, afi: nat, safi: byte, nlri: seq<byte>)
    requires a.kind == MP_UNREACH_NLRI && DecodeMpUnreach(a.value) == Some((afi, safi, nlri))
    ensures ReadAttr(a) == ReadNlri(FamilyOf(afi, safi), true, nlri)
  {
  }

  lemma UnreachReads(f: Family, nlri: seq<byte>)
    ensures ReadAttrs([Attribute(OPTIONAL, MP_UNREACH_NLRI, MpUnreachValue(Afi(f), Safi(f), nlri))])
            == ReadNlri(FamilyOf(Afi(f), Safi(f)), true, nlri)
  {
    var a := Attribute(OPTIONAL, MP_UNREACH_NLRI, MpUnreachValue(Afi(f), Safi(f), nlri));
    MpUnreachRoundTrip(Afi(f), Safi(f), nlri);
    ReadUnreach(a, Afi(f), Safi(f), nlri);
    ReadOneAttr(a);
  }

  lemma AttrsOnly(octets: seq<byte>, attrs: seq<Attribute>)
    requires |octets| + 4 <= MAX_BODY && DecodeAttrs(octets) == Some(attrs)
    ensures DecodeUpdate(BgpPacket(UPDATE, U16(0) + U16(|octets|) + octets), false) == Some(Update([], attrs, []))
  {
    AnnouncementBody(octets, []);
    UnwrapPacket(UpdateBody([], octets, []));
    SplitRoundTrip([], octets, []);
    OnlyAttrs(octets, attrs);
    Decoded(BgpPacket(UPDATE, U16(0) + U16(|octets|) + octets), UpdateBody([], octets, []), Parts([], octets, []),
            Update([], attrs, []));
  }

  lemma OnlyAttrs(octets: seq<byte>, attrs: seq<Attribute>)
    requires DecodeAttrs(octets) == Some(attrs)
    ensures DecodeParts(Parts([], octets, []), false) == Some(Update([], attrs, []))
  {
    NothingDecodes();
  }

  lemma Decoded(packet: seq<byte>, body: seq<byte>, parts: Parts, u: Update)
    requires Unwrap(packet) == Some(body) && SplitBody(body) == Some(parts) && DecodeParts(parts, false) == Some(u)
    ensures DecodeUpdate(packet, false) == Some(u)
  {
  }

  lemma NothingDecodes()
    ensures DecodeNlris([], false) == Some([])
  {
  }

  lemma Ipv4WithdrawalReads(s: Source, prefixes: seq<seq<byte>>)
    requires s.family.Ipv4Unicast? && Sized(s.family, prefixes) && prefixes != []
    requires |Withdrawal(s, prefixes)| <= 65535
    ensures ReadUpdate(Withdrawal(s, prefixes)) == Some([Move(s.family, true, RoutesOf(s, prefixes))])
  {
    Ipv4WithdrawRoundTrip(Addresses(prefixes));
    Ipv4WithdrawnAre(s, prefixes);
    MoveReadBack(s, prefixes, NO_LABEL, true);
    var move := [Move(s.family, true, RoutesOf(s, prefixes))];
    assert move + [] + [] == move;
  }

  /** An announcement is read as exactly its routes up to the family's capacity, and not at all beyond it. */
  lemma AnnouncementReadsIff(s: Source, prefixes: seq<seq<byte>>)
    requires Sized(s.family, prefixes) && prefixes != []
    requires |s.shared.asns| <= 63 && CommunityOk(s.shared.community)
    ensures Announcement(s, prefixes).Some?
    ensures ReadUpdate(Announcement(s, prefixes).value)
            == if |prefixes| <= Capacity(s.family, |s.shared.asns|, false)
               then Some([Move(s.family, false, RoutesOf(s, prefixes))]) else None
  {
    FitsIff(s.family, |s.shared.asns|, false, |prefixes|);
    if s.family.Ipv4Unicast? {
      Ipv4AnnouncementLength(s, prefixes);
    } else {
      MpAnnouncementLength(s, prefixes);
    }
    if |Announcement(s, prefixes).value| > 65535 {
      AnnouncementIsPacket(s, prefixes);
    } else if s.family.Ipv4Unicast? {
      Ipv4AnnouncementReads(s, prefixes);
    } else {
      MpAnnouncementReads(s, prefixes);
    }
  }

  lemma AnnouncementIsPacket(s: Source, prefixes: seq<seq<byte>>)
    requires Sized(s.family, prefixes) && Announcement(s, prefixes).Some?
    requires |Announcement(s, prefixes).value| > 65535
    ensures ReadUpdate(Announcement(s, prefixes).value) == None
  {
    if s.family.Ipv4Unicast? {
      var bytes := PathAttrs(Ipv4Attrs(Ipv4Options(s)).value);
      OverlongIsUnreadable(U16(0) + U16(|bytes|) + bytes
                           + EncodeNlris(Ipv4Nlris(Addresses(prefixes), Ipv4Options(s))));
    } else {
      var attrs := MultiprotocolAttrs(Reach(s, prefixes), Some(s.shared.localPref), [s.shared.community],
                                      [AsPathAttr(s.shared.asns)]).value;
      OverlongIsUnreadable(U16(0) + U16(|PathAttrs(attrs)|) + PathAttrs(attrs));
    }
  }

  /** The same for a withdrawal, whose capacity does not depend on the path. */
  lemma WithdrawalReadsIff(s: Source, prefixes: seq<seq<byte>>, hops: nat)
    requires Sized(s.family, prefixes) && prefixes != [] && hops <= 63
    ensures ReadUpdate(Withdrawal(s, prefixes))
            == if |prefixes| <= Capacity(s.family, hops, true)
               then Some([Move(s.family, true, RoutesOf(s, prefixes))]) else None
  {
    FitsIff(s.family, hops, true, |prefixes|);
    WithdrawalLength(s, prefixes, hops);
    if |Withdrawal(s, prefixes)| > 65535 {
      WithdrawalIsPacket(s, prefixes);
    } else if s.family.Ipv4Unicast? {
      Ipv4WithdrawalReads(s, prefixes);
    } else {
      MpWithdrawalReads(s, prefixes);
    }
  }

  lemma WithdrawalIsPacket(s: Source, prefixes: seq<seq<byte>>)
    requires Sized(s.family, prefixes) && |Withdrawal(s, prefixes)| > 65535
    ensures ReadUpdate(Withdrawal(s, prefixes)) == None
  {
    if s.family.Ipv4Unicast? {
      var xs := Addresses(prefixes);
      var withdrawn := EncodeNlris(seq(|xs|, i requires 0 <= i < |xs| => Ipv4Nlri(xs[i], None)));
      OverlongIsUnreadable(U16(|withdrawn|) + withdrawn + U16(0));
    } else {
      var attr := LongAttr(Unreach(s, prefixes));
      OverlongIsUnreadable(U16(0) + U16(|attr|) + attr);
    }
  }

  /** An end-of-RIB marker of any family moves no route. */
  lemma RibEndReads(f: Family)
    ensures ReadUpdate(UpdateOctets(RibEnd(f))) == Some([])
  {
    if f.Ipv4Unicast? {
      assert U16(0) + U16(0) + [] == U16(0) + U16(0);
      AttrsOnly([], []);
      ReadsAs(EndOfRibUpdate(f), [], []);
    } else {
      var a := Attribute(OPTIONAL, MP_UNREACH_NLRI, MpUnreachValue(Afi(f), Safi(f), []));
      ShortWithdrawal(f, a);
      UnreachReads(f, []);
      NothingDecodes();
      ReadsAs(EndOfRibUpdate(f), [a], []);
    }
  }

  lemma ShortWithdrawal(f: Family, a: Attribute)
    requires a == Attribute(OPTIONAL, MP_UNREACH_NLRI, MpUnreachValue(Afi(f), Safi(f), []))
    ensures DecodeUpdate(MultiprotocolWithdraw(Afi(f), Safi(f), []), false) == Some(Update([], [a], []))
  {
    assert |MultiprotocolWithdraw(Afi(f), Safi(f), [])| == 29;
    MultiprotocolWithdrawRoundTrip(Afi(f), Safi(f), []);
  }
}
