/** A receiver that reads the path of an announcement out of its attributes, by the type codes and formats of RFC 4271,
    RFC 4760 and RFC 1997, and finds what the client put in. */
module RouteReader {
  import opened Options
  import opened Bytes
  import opened BgpUpdate
  import opened ScaleUpdates
  import opened ScaleStream

  // ------------------------------------------------------------------- reader

  function ReadWords(s: seq<byte>): Option<seq<nat>> {
    if s == [] then Some([])
    else if |s| < 4 then None
    else
      var rest := ReadWords(s[4..]);
      if rest.None? then None else Some([ReadU32(s[0], s[1], s[2], s[3])] + rest.value)
  }

  /** One AS_SEQUENCE segment, type 2, with its count in one octet and four octets for each number. */
  function ReadAsPath(s: seq<byte>): Option<seq<nat>> {
    if |s| < 2 || s[0] != 2 then None
    else
      var count: nat := s[1];
      if |s| != 2 + 4 * count then None else ReadWords(s[2..])
  }

  /** Each community is an AS number and a local value of two octets each. */
  function ReadCommunities(s: seq<byte>): Option<seq<Community>> {
    if s == [] then Some([])
    else if |s| < 4 then None
    else
      var rest := ReadCommunities(s[4..]);
      if rest.None? then None else Some([Community(ReadU16(s[0], s[1]), ReadU16(s[2], s[3]))] + rest.value)
  }

  /** What the attributes say about the way to a route; a part is missing if its attribute is, or is malformed. */
  datatype Way = Way(origin: Option<nat>, asns: Option<seq<nat>>, nextHop: Option<seq<byte>>, localPref: Option<nat>,
                     communities: Option<seq<Community>>)

  function NoWay(): Way {
    Way(None, None, None, None, None)
  }

  /** Well-known attributes have flags 0x40, communities are optional and transitive, and multiprotocol reachability
      is optional. */
  function ReadOne(w: Way, a: Attribute): Way {
    if a.flags == 0x40 && a.kind == 1 && |a.value| == 1 then w.(origin := Some(a.value[0]))
    else if a.flags == 0x40 && a.kind == 2 then w.(asns := ReadAsPath(a.value))
    else if a.flags == 0x40 && a.kind == 3 && |a.value| == 4 then w.(nextHop := Some(a.value))
    else if a.flags == 0x40 && a.kind == 5 && |a.value| == 4 then
      w.(localPref := Some(ReadU32(a.value[0], a.value[1], a.value[2], a.value[3])))
    else if a.flags == 0xc0 && a.kind == 8 then w.(communities := ReadCommunities(a.value))
    else if a.flags == 0x80 && a.kind == 14 && DecodeMpReach(a.value).Some? then
      w.(nextHop := Some(DecodeMpReach(a.value).value.nextHop))
    else w
  }

  function ReadWay(w: Way, attrs: seq<Attribute>): Way
    decreases |attrs|
  {
    if attrs == [] then w else ReadWay(ReadOne(w, attrs[0]), attrs[1..])
  }

  lemma {:induction false} ReadWayAppend(w: Way, a: seq<Attribute>, b: seq<Attribute>)
    ensures ReadWay(w, a + b) == ReadWay(ReadWay(w, a), b)
    decreases |a|
  {
    if a == [] {
      assert a + b == b;
    } else {
      assert (a + b)[1..] == a[1..] + b;
      ReadWayAppend(ReadOne(w, a[0]), a[1..], b);
    }
  }

  // --------------------------------------------------------------- round trips

  lemma {:induction false} WordsRead(values: seq<nat>)
    ensures ReadWords(U32s(values)).Some? && |ReadWords(U32s(values)).value| == |values|
    ensures forall i :: 0 <= i < |values| ==> ReadWords(U32s(values)).value[i] == values[i] % 0x1_0000_0000
    decreases |values|
  {
    if values != [] {
      var s := U32s(values);
      assert s[..4] == U32(values[0]) && s[4..] == U32s(values[1..]);
      ReadBackU32(values[0]);
      WordsRead(values[1..]);
    }
  }

  lemma SegmentReads(n: nat, body: seq<byte>)
    requires |body| == 4 * n
    ensures ReadAsPath([2, n % 256] + body) == if n <= 255 then ReadWords(body) else None
  {
    assert ([2, n % 256] + body)[2..] == body;
    CountKept(n);
  }

  lemma CountKept(n: nat)
    ensures n % 256 == n <==> n <= 255
  {
  }

  /** Numbers modulo 2^32 are the numbers themselves exactly when all are below. */
  lemma SmallWords(asns: seq<nat>, words: seq<nat>)
    requires |words| == |asns| && forall i :: 0 <= i < |asns| ==> words[i] == asns[i] % 0x1_0000_0000
    ensures words == asns <==> forall i :: 0 <= i < |asns| ==> asns[i] < 0x1_0000_0000
  {
    if words == asns {
      assert forall i :: 0 <= i < |asns| ==> asns[i] == words[i];
    }
  }

  /** The AS path is read back as it was exactly when its length fits one octet and every number four. */
  lemma AsPathSurvivesIff(asns: seq<nat>)
    ensures ReadAsPath(AsPathAttr(asns).value) == Some(asns) <==>
            |asns| <= 255 && forall i :: 0 <= i < |asns| ==> asns[i] < 0x1_0000_0000
  {
    U32sLength(asns);
    SegmentReads(|asns|, U32s(asns));
    WordsRead(asns);
    SmallWords(asns, ReadWords(U32s(asns)).value);
  }

  lemma {:induction false} CommunitiesRead(list: seq<Community>)
    requires forall c :: c in list ==> c.asn <= 0xffff && c.local <= 0xffff
    ensures ReadCommunities(CommunityBytes(list)) == Some(list)
    decreases |list|
  {
    if list != [] {
      var s, c := CommunityBytes(list), list[0];
      SmallU16(c.asn);
      SmallU16(c.local);
      assert s[..4] == U16(c.asn) + U16(c.local) && s[4..] == CommunityBytes(list[1..]);
      assert s[0] == U16(c.asn)[0] && s[1] == U16(c.asn)[1] && s[2] == U16(c.local)[0] && s[3] == U16(c.local)[1];
      assert forall x :: x in list[1..] ==> x in list;
      CommunitiesRead(list[1..]);
      assert list == [c] + list[1..];
    }
  }

  // ------------------------------------------------------------- announcements

  ghost predicate Ordinary(asns: seq<nat>, localPref: nat) {
    |asns| <= 255 && localPref < 0x1_0000_0000 && forall i :: 0 <= i < |asns| ==> asns[i] < 0x1_0000_0000
  }

  lemma ReadFour(w: Way, a: Attribute, b: Attribute, c: Attribute, d: Attribute)
    ensures ReadWay(w, [a, b, c, d]) == ReadOne(ReadOne(ReadOne(ReadOne(w, a), b), c), d)
  {
    assert [a, b, c, d] == [a] + [b, c, d] && [b, c, d] == [b] + [c, d] && [c, d] == [c] + [d];
    ReadFirst(w, a, [b, c, d]);
    ReadFirst(ReadOne(w, a), b, [c, d]);
    ReadFirst(ReadOne(ReadOne(w, a), b), c, [d]);
    ReadLast(ReadOne(ReadOne(ReadOne(w, a), b), c), d);
  }

  lemma ReadFirst(w: Way, a: Attribute, rest: seq<Attribute>)
    ensures ReadWay(w, [a] + rest) == ReadWay(ReadOne(w, a), rest)
  {
    assert ([a] + rest)[1..] == rest;
  }

  lemma ReadLast(w: Way, a: Attribute)
    ensures ReadWay(w, [a]) == ReadOne(w, a)
  {
    assert [a][1..] == [];
  }

  lemma LocalPrefReads(w: Way, localPref: nat)
    requires localPref < 0x1_0000_0000
    ensures ReadOne(w, Attribute(TRANSITIVE, LOCAL_PREF, U32(localPref))) == w.(localPref := Some(localPref))
  {
    SmallU32(localPref);
  }

  lemma AsPathReads(w: Way, asns: seq<nat>)
    requires Ordinary(asns, 0)
    ensures ReadOne(w, AsPathAttr(asns)) == w.(asns := Some(asns))
  {
    AsPathSurvivesIff(asns);
  }

  lemma CommunityAttrReads(w: Way, list: seq<Community>)
    requires CommunitiesAttr(list).Some?
    ensures ReadOne(w, CommunitiesAttr(list).value) == w.(communities := Some(list))
  {
    CommunitiesRead(list);
  }

  /** The way that an announcement of IPv4 prefixes describes: its own AS path, next hop, preference and
      communities, with origin IGP. */
  lemma Ipv4WayReads(o: RouteOptions)
    requires Ipv4Attrs(o).Some? && Ordinary(o.asns, o.localPref)
    ensures ReadWay(NoWay(), Ipv4Attrs(o).value)
            == Way(Some(0), Some(o.asns), Some([o.nextHop.a, o.nextHop.b, o.nextHop.c, o.nextHop.d]), Some(o.localPref),
                   if o.communities == [] then None else Some(o.communities))
  {
    var a, b := Attribute(TRANSITIVE, ORIGIN, [0]), AsPathAttr(o.asns);
    var c := Attribute(TRANSITIVE, NEXT_HOP, IpBytes(o.nextHop));
    var d := Attribute(TRANSITIVE, LOCAL_PREF, U32(o.localPref));
    ReadFour(NoWay(), a, b, c, d);
    AsPathReads(ReadOne(NoWay(), a), o.asns);
    LocalPrefReads(ReadOne(ReadOne(ReadOne(NoWay(), a), b), c), o.localPref);
    if o.communities != [] {
      var e := CommunitiesAttr(o.communities).value;
      ReadWayAppend(NoWay(), [a, b, c, d], [e]);
      ReadLast(ReadWay(NoWay(), [a, b, c, d]), e);
      CommunityAttrReads(ReadWay(NoWay(), [a, b, c, d]), o.communities);
    }
  }

  /** The same for a multiprotocol announcement, whose next hop is in the reachability attribute. */
  lemma MultiprotocolWayReads(m: MpReach, localPref: nat, communities: seq<Community>, asns: seq<nat>)
    requires m.afi <= 0xffff && |m.nextHop| <= 255 && Ordinary(asns, localPref) && communities != []
    requires MultiprotocolAttrs(m, Some(localPref), communities, [AsPathAttr(asns)]).Some?
    ensures ReadWay(NoWay(), MultiprotocolAttrs(m, Some(localPref), communities, [AsPathAttr(asns)]).value)
            == Way(Some(0), Some(asns), Some(m.nextHop), Some(localPref), Some(communities))
  {
    var a, b := Attribute(TRANSITIVE, ORIGIN, [0]), Attribute(OPTIONAL, MP_REACH_NLRI, MpReachValue(m));
    var c, d := AsPathAttr(asns), Attribute(TRANSITIVE, LOCAL_PREF, U32(localPref));
    var e := CommunitiesAttr(communities).value;
    assert MultiprotocolAttrs(m, Some(localPref), communities, [c]).value == [a, b, c, d] + [e];
    MpReachRoundTrip(m);
    ReadFour(NoWay(), a, b, c, d);
    AsPathReads(ReadOne(ReadOne(NoWay(), a), b), asns);
    LocalPrefReads(ReadOne(ReadOne(ReadOne(NoWay(), a), b), c), localPref);
    ReadWayAppend(NoWay(), [a, b, c, d], [e]);
    ReadLast(ReadWay(NoWay(), [a, b, c, d]), e);
    CommunityAttrReads(ReadWay(NoWay(), [a, b, c, d]), communities);
  }

  // ------------------------------------------------------------ load generator

  /** An address as groups of sixteen bits. */
  function Groups(octets: seq<byte>): seq<nat> {
    if |octets| < 2 then [] else [ReadU16(octets[0], octets[1])] + Groups(octets[2..])
  }

  /** The next hop of a table: an IPv4 address, or 2001:db8:ff::host, behind an empty route distinguisher for VPNs. */
  ghost predicate IsNextHop(s: Source, octets: seq<byte>) {
    var address := if s.family.Vpnv4? || s.family.Vpnv6? then octets[Min(8, |octets|)..] else octets;
    && (s.family.Vpnv4? || s.family.Vpnv6? ==> |octets| >= 8 && forall i :: 0 <= i < 8 ==> octets[i] == 0)
    && if s.family.Ipv4Unicast? || s.family.Vpnv4?
       then address == [s.shared.nextHop4.a, s.shared.nextHop4.b, s.shared.nextHop4.c, s.shared.nextHop4.d]
       else Groups(address) == [0x2001, 0x0db8, 0x00ff, 0, 0, 0, 0, s.shared.host6]
  }

  lemma GroupsUnfold(octets: seq<byte>)
    requires |octets| >= 2
    ensures Groups(octets) == [ReadU16(octets[0], octets[1])] + Groups(octets[2..])
  {
  }

  lemma EightGroups(h: seq<byte>)
    requires |h| == 16
    ensures Groups(h) == [ReadU16(h[0], h[1]), ReadU16(h[2], h[3]), ReadU16(h[4], h[5]), ReadU16(h[6], h[7]),
                          ReadU16(h[8], h[9]), ReadU16(h[10], h[11]), ReadU16(h[12], h[13]), ReadU16(h[14], h[15])]
  {
    GroupsUnfold(h);
    GroupsUnfold(h[2..]);
    assert h[2..][2..] == h[4..];
    GroupsUnfold(h[4..]);
    assert h[4..][2..] == h[6..];
    GroupsUnfold(h[6..]);
    assert h[6..][2..] == h[8..];
    GroupsUnfold(h[8..]);
    assert h[8..][2..] == h[10..];
    GroupsUnfold(h[10..]);
    assert h[10..][2..] == h[12..];
    GroupsUnfold(h[12..]);
    assert h[12..][2..] == h[14..];
    GroupsUnfold(h[14..]);
    assert h[14..][2..] == [];
  }

  lemma NextHopReads(s: Source)
    requires s.shared.host6 <= 0xffff
    ensures IsNextHop(s, NextHop(s)) && |NextHop(s)| <= 24
  {
    var h := NextHop6(s.shared.host6);
    EightGroups(h);
    SmallU16(s.shared.host6);
    assert h[14] == U16(s.shared.host6)[0] && h[15] == U16(s.shared.host6)[1];
    var zeros: seq<byte> := [0, 0, 0, 0, 0, 0, 0, 0];
    assert (zeros + h)[8..] == h && (zeros + IpBytes(s.shared.nextHop4))[8..] == IpBytes(s.shared.nextHop4);
  }

  /** Every announcement of the generator, in all four families, describes the way its table asks for. */
  lemma AnnouncementWay(s: Source, prefixes: seq<seq<byte>>)
    requires Sized(s.family, prefixes) && Announcement(s, prefixes).Some? && |Announcement(s, prefixes).value| <= 65535
    requires Ordinary(s.shared.asns, s.shared.localPref) && s.shared.host6 <= 0xffff
    ensures var u := DecodeUpdate(Announcement(s, prefixes).value, false);
            && u.Some?
            && var w := ReadWay(NoWay(), u.value.attrs);
            && w.nextHop.Some? && IsNextHop(s, w.nextHop.value)
            && w == Way(Some(0), Some(s.shared.asns), w.nextHop, Some(s.shared.localPref), Some([s.shared.community]))
  {
    NextHopReads(s);
    if s.family.Ipv4Unicast? {
      Ipv4UpdateRoundTrip(Addresses(prefixes), Ipv4Options(s));
      Ipv4WayReads(Ipv4Options(s));
    } else {
      AsPathPlain(s.shared.asns);
      MultiprotocolRoundTrip(Reach(s, prefixes), Some(s.shared.localPref), [s.shared.community],
                             [AsPathAttr(s.shared.asns)]);
      MultiprotocolWayReads(Reach(s, prefixes), s.shared.localPref, [s.shared.community], s.shared.asns);
    }
  }

  /** A withdrawal of a multiprotocol family is one optional attribute of type 15 and nothing else. */
  lemma WithdrawalForm(s: Source, prefixes: seq<seq<byte>>)
    requires Sized(s.family, prefixes) && !s.family.Ipv4Unicast? && |Withdrawal(s, prefixes)| <= 65535
    ensures var u := DecodeUpdate(Withdrawal(s, prefixes), false);
            && u.Some? && u.value.withdrawn == [] && u.value.nlris == [] && |u.value.attrs| == 1
            && u.value.attrs[0].flags == 0x80 && u.value.attrs[0].kind == 15
  {
    var value := Unreach(s, prefixes);
    LongAttrDecodes(value);
    AttrsOnly(LongAttr(value), [Attribute(OPTIONAL, MP_UNREACH_NLRI, value)]);
  }

  lemma AsPathPlain(asns: seq<nat>)
    requires |asns| <= 255
    ensures Encodable(AsPathAttr(asns)) && Plain(AsPathAttr(asns)) == AsPathAttr(asns)
  {
    U32sLength(asns);
  }

  // ------------------------------------------------------- labels and prefixes

  function ReadU24(a: byte, b: byte, c: byte): nat {
    ReadU16(a, b) * 256 + c
  }

  lemma ReadBackU24(value: nat)
    requires value < 0x100_0000
    ensures ReadU24(value / 0x1_0000 % 256, value / 256 % 256, value % 256) == value
  {
    DividedAgain(value);
    assert value / 256 / 256 < 256;
  }

  /** A label of twenty bits, and whether it is the last of its stack, as in section 2.1 of RFC 3032. */
  function ReadLabel(s: seq<byte>): (nat, bool)
    requires |s| >= 3
  {
    var value := ReadU24(s[0], s[1], s[2]);
    (value / 16, value % 2 == 1)
  }

  lemma LabelReads(mpls: nat)
    requires mpls < 0x10_0000
    ensures ReadLabel(LabelBytes(mpls)) == (mpls, true)
  {
    var value := mpls * 16 + 1;
    ReadBackU24(value);
    Sixteenth(value, mpls);
    Odd(value, mpls * 8);
  }

  lemma Sixteenth(value: int, mpls: int)
    requires mpls * 16 <= value < mpls * 16 + 16
    ensures value / 16 == mpls
  {
  }

  lemma Odd(value: int, half: int)
    requires value == half * 2 + 1
    ensures value % 2 == 1
  {
  }

  /** A VPN route carries the label, a distinguisher of type 0 for AS 65000 with the number of its table, and the
      prefix. */
  lemma VpnRouteReads(s: Source, prefix: seq<byte>, mpls: nat)
    requires IsVpn(s.family) && |prefix| == PrefixOctets(s.family) && mpls < 0x10_0000 && s.rdNumber < 0x1_0000_0000
    ensures var n := NlriOf(s, prefix, mpls);
            && |n.octets| == 11 + |prefix| && n.bits == 8 * |n.octets| && n.octets[11..] == prefix
            && ReadLabel(n.octets) == (mpls, true) && ReadU16(n.octets[3], n.octets[4]) == 0
            && ReadU16(n.octets[5], n.octets[6]) == 65000
            && ReadU32(n.octets[7], n.octets[8], n.octets[9], n.octets[10]) == s.rdNumber
  {
    var tag, rd := LabelBytes(mpls), Rd(s.rdNumber);
    LabelReads(mpls);
    SmallU16(65000);
    SmallU32(s.rdNumber);
    assert rd[2..4] == U16(RD_ASN) && rd[4..] == U32(s.rdNumber);
    OctetsOf(tag, rd, prefix);
  }

  lemma OctetsOf(tag: seq<byte>, rd: seq<byte>, prefix: seq<byte>)
    requires |tag| == 3 && |rd| == 8
    ensures var o := tag + rd + prefix;
            && o[0] == tag[0] && o[1] == tag[1] && o[2] == tag[2] && o[11..] == prefix
            && o[3] == rd[0] && o[4] == rd[1] && o[5] == rd[2] && o[6] == rd[3]
            && o[7] == rd[4] && o[8] == rd[5] && o[9] == rd[6] && o[10] == rd[7]
  {
  }

  /** Every route that the octets hold has this label. */
  ghost predicate Labelled(nlri: seq<byte>, count: nat, mpls: nat) {
    var list := DecodeNlris(nlri, false);
    && list.Some? && |list.value| == count
    && forall i :: 0 <= i < count ==> |list.value[i].octets| >= 11 && ReadLabel(list.value[i].octets) == (mpls, true)
  }

  lemma LabelsRead(s: Source, prefixes: seq<seq<byte>>, mpls: nat)
    requires IsVpn(s.family) && Sized(s.family, prefixes) && mpls < 0x10_0000 && s.rdNumber < 0x1_0000_0000
    ensures Labelled(EncodeNlris(NlrisOf(s, prefixes, mpls)), |prefixes|, mpls)
  {
    NlrisRoundTrip(NlrisOf(s, prefixes, mpls), false);
    forall i | 0 <= i < |prefixes|
      ensures |NlriOf(s, prefixes[i], mpls).octets| >= 11
              && ReadLabel(NlriOf(s, prefixes[i], mpls).octets) == (mpls, true)
    {
      VpnRouteReads(s, prefixes[i], mpls);
    }
  }

  /** VPN routes are announced with the label of their table. */
  lemma AnnouncedLabels(s: Source, prefixes: seq<seq<byte>>)
    requires IsVpn(s.family) && Sized(s.family, prefixes) && s.shared.mpls < 0x10_0000 && s.rdNumber < 0x1_0000_0000
    ensures Labelled(Reach(s, prefixes).nlri, |prefixes|, s.shared.mpls)
  {
    LabelsRead(s, prefixes, s.shared.mpls);
  }

  /** They are withdrawn with label 0x80000. */
  lemma WithdrawnLabels(s: Source, prefixes: seq<seq<byte>>, nlri: seq<byte>)
    requires IsVpn(s.family) && Sized(s.family, prefixes) && s.rdNumber < 0x1_0000_0000
    requires Unreach(s, prefixes) == MpUnreachValue(Afi(s.family), Safi(s.family), nlri)
    ensures Labelled(nlri, |prefixes|, 0x80000)
  {
    LabelsRead(s, prefixes, NO_LABEL);
    assert Unreach(s, prefixes)[3..] == nlri;
    assert Unreach(s, prefixes)[3..] == EncodeNlris(NlrisOf(s, prefixes, NO_LABEL));
  }

  /** Accepted IPv4 prefixes are numbered through from 10.0.0.0/24 on. */
  lemma Ipv4PrefixesNumbered(g: nat)
    requires 10 + g / 65536 <= 223
    ensures var r := Ipv4Octets(g); ReadU24(r[0], r[1], r[2]) == 10 * 0x1_0000 + g
  {
    DividedAgain(g);
  }

  /** IPv6 prefixes are numbered through within 2001:100::/24. */
  lemma Ipv6PrefixesNumbered(g: nat)
    requires g < 0x1_0000_0000
    ensures var r := Ipv6Octets(g);
            && r[..3] == [0x20, 0x01, 0x01] && r[7] == 0 && ReadU32(r[3], r[4], r[5], r[6]) == g
  {
    SmallU32(g);
  }

  /** Peers are numbered through from 10.255.0.1 on, 250 to each third octet. */
  lemma PeersNumbered(peerIndex: nat)
    requires peerIndex < 64000
    ensures var key := PeerKey(peerIndex);
            1 <= key.fourth <= 250 && key.third * 250 + (key.fourth - 1) == peerIndex
  {
  }

  /** A peer announces itself: the next hop is its own address, path and community begin with its own AS number. */
  lemma PeerAnnouncesItself(peerIndex: nat)
    requires peerIndex < 64000
    ensures var s, key := PeerShared(peerIndex), PeerKey(peerIndex);
            && s.nextHop4 == Ipv4(10, 255, key.third, key.fourth) && s.host6 == peerIndex + 1
            && s.community.asn == s.asns[0] == 64512 + peerIndex && |s.asns| == 3
  {
  }

  /** The plan: as many routes in each family as an even split allows, as many withdrawals as the percentage allows, and
      blocks just large enough for the largest table. */
  lemma PlanNumbers(o: ScaleOptions)
    requires o.Parsed()
    ensures var n, w, block := RoutesPerFamily(o), WithdrawCount(o), PrefixBlockSize(o);
            && n * |o.families| <= o.routes < (n + 1) * |o.families|
            && 100 * w <= n * o.withdrawPercent < 100 * (w + 1)
            && block >= 1 && n <= block && o.locRibRoutes <= block && (block > 1 ==> block in {n, o.locRibRoutes})
  {
    var k := |o.families|;
    EvenSplit(o.routes, k);
  }

  lemma EvenSplit(total: nat, parts: nat)
    requires parts >= 1
    ensures total / parts * parts <= total < (total / parts + 1) * parts
  {
  }
}
