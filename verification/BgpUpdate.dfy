/** Path attributes with one- and two-octet lengths, prefixes, and whole UPDATE messages, each with a decoder
    written from section 4.3 of RFC 4271. */
module BgpUpdate {
  import opened Options
  import opened Bytes
  import opened BgpStream

  const TRANSITIVE: byte := 0x40
  const OPTIONAL: byte := 0x80

  datatype Attribute = Attribute(flags: byte, kind: byte, value: seq<byte>)

  // ------------------------------------------------------------- attributes

  /** Bit 0x10: the length takes two octets. */
  predicate HasExtended(flags: byte) {
    flags / 16 % 2 == 1
  }

  function SetExtended(flags: byte): (r: byte)
    ensures HasExtended(r)
  {
    if HasExtended(flags) then flags else flags + 16
  }

  function ClearExtended(flags: byte): byte {
    if HasExtended(flags) then flags - 16 else flags
  }

  function PathAttr(a: Attribute): seq<byte> {
    if |a.value| > 255 then [SetExtended(a.flags), a.kind] + U16(|a.value|) + a.value
    else [a.flags, a.kind, |a.value|] + a.value
  }

  function PathAttrs(attrs: seq<Attribute>): seq<byte> {
    if attrs == [] then [] else PathAttr(attrs[0]) + PathAttrs(attrs[1..])
  }

  /** The octets of the first attribute's header, or zero if there are too few. */
  function HeaderLength(s: seq<byte>): nat {
    if s == [] then 0
    else if HasExtended(s[0]) then (if |s| >= 4 then 4 else 0)
    else if |s| >= 3 then 3
    else 0
  }

  function ValueLength(s: seq<byte>): nat
    requires HeaderLength(s) > 0
  {
    if HasExtended(s[0]) then ReadU16(s[2], s[3]) else s[2]
  }

  /** All attributes, with the extended-length bit cleared, or nothing if the octets do not divide up. */
  function DecodeAttrs(s: seq<byte>): Option<seq<Attribute>>
    decreases |s|
  {
    if s == [] then Some([])
    else
      var header := HeaderLength(s);
      if header == 0 || |s| < header + ValueLength(s) then None
      else
        var end := header + ValueLength(s);
        var rest := DecodeAttrs(s[end..]);
        if rest.None? then None else Some([Attribute(ClearExtended(s[0]), s[1], s[header..end])] + rest.value)
  }

  /** The attribute can be told apart from a longer or shorter one by its header. */
  predicate Encodable(a: Attribute) {
    |a.value| <= 65535 && (HasExtended(a.flags) ==> |a.value| > 255)
  }

  function Plain(a: Attribute): Attribute {
    a.(flags := ClearExtended(a.flags))
  }

  function AllPlain(attrs: seq<Attribute>): seq<Attribute> {
    seq(|attrs|, i requires 0 <= i < |attrs| => Plain(attrs[i]))
  }

  lemma SetThenClear(flags: byte)
    ensures ClearExtended(SetExtended(flags)) == ClearExtended(flags)
  {
  }

  lemma DecodeFirst(a: Attribute, more: seq<byte>)
    requires Encodable(a)
    ensures var s := PathAttr(a) + more;
            var header := if |a.value| > 255 then 4 else 3;
            && HeaderLength(s) == header && ValueLength(s) == |a.value| && |PathAttr(a)| == header + |a.value|
            && s[0] == PathAttr(a)[0] && ClearExtended(s[0]) == ClearExtended(a.flags) && s[1] == a.kind
            && s[header..header + |a.value|] == a.value && s[header + |a.value|..] == more
  {
    SetThenClear(a.flags);
    SmallU16(|a.value|);
  }

  lemma DecodeOne(a: Attribute, more: seq<byte>, rest: seq<Attribute>)
    requires Encodable(a) && DecodeAttrs(more) == Some(rest)
    ensures DecodeAttrs(PathAttr(a) + more) == Some([Plain(a)] + rest)
  {
    DecodeFirst(a, more);
  }

  /** Across both header widths the concatenated attributes split back into the same list. */
  lemma {:induction false} AttrsRoundTrip(attrs: seq<Attribute>)
    requires forall a :: a in attrs ==> Encodable(a)
    ensures DecodeAttrs(PathAttrs(attrs)) == Some(AllPlain(attrs))
  {
    if attrs != [] {
      var a, rest := attrs[0], attrs[1..];
      assert AllPlain(attrs) == [Plain(a)] + AllPlain(rest);
      calc {
        DecodeAttrs(PathAttrs(attrs));
        DecodeAttrs(PathAttr(a) + PathAttrs(rest));
        { AttrsRoundTrip(rest); DecodeOne(a, PathAttrs(rest), AllPlain(rest)); }
        Some([Plain(a)] + AllPlain(rest));
      }
    }
  }

  /** One attribute survives exactly when its value fits two octets of length and the extended-length flag was not
      already set on a short value. */
  lemma AttrSurvivesIff(a: Attribute)
    ensures DecodeAttrs(PathAttrs([a])) == Some([Plain(a)]) <==> Encodable(a)
  {
    assert PathAttrs([a]) == PathAttr(a) by {
      assert [a][1..] == [] && PathAttr(a) + [] == PathAttr(a);
    }
    if Encodable(a) {
      AttrsRoundTrip([a]);
      assert AllPlain([a]) == [Plain(a)];
    } else if |a.value| <= 65535 {
      MisflaggedFails(a);
    } else {
      OverlongFails(a);
    }
  }

  lemma MisflaggedFails(a: Attribute)
    requires HasExtended(a.flags) && |a.value| <= 255
    ensures DecodeAttrs(PathAttr(a)) == None
  {
    var s := PathAttr(a);
    if |s| >= 4 {
      assert s[2] == |a.value| && s[3] == a.value[0];
      assert ValueLength(s) == |a.value| * 256 + a.value[0];
    }
  }

  lemma OverlongFails(a: Attribute)
    requires |a.value| > 65535
    ensures DecodeAttrs(PathAttr(a)) != Some([Plain(a)])
  {
    var s := PathAttr(a);
    ReadBackU16(|a.value|);
    assert ValueLength(s) == |a.value| % 0x1_0000;
  }

  // --------------------------------------------------------------- prefixes

  /** A prefix in NLRI form: an optional path identifier, its length in bits and its octets. */
  datatype Nlri = Nlri(pathId: Option<nat>, bits: byte, octets: seq<byte>)

  /** The least number of octets that hold the bits. */
  function Octets(bits: byte): (r: nat)
    ensures 8 * r >= bits && (r > 0 ==> 8 * (r - 1) < bits)
  {
    (bits + 7) / 8
  }

  function EncodeNlri(n: Nlri): seq<byte> {
    (if n.pathId.Some? then U32(n.pathId.value) else []) + [n.bits] + n.octets
  }

  function EncodeNlris(list: seq<Nlri>): seq<byte> {
    if list == [] then [] else EncodeNlri(list[0]) + EncodeNlris(list[1..])
  }

  function DecodeNlris(s: seq<byte>, addPath: bool): Option<seq<Nlri>>
    decreases |s|
  {
    if s == [] then Some([])
    else
      var skip := if addPath then 4 else 0;
      if |s| <= skip || |s| < skip + 1 + Octets(s[skip]) then None
      else
        var id := if addPath then Some(ReadU32(s[0], s[1], s[2], s[3])) else None;
        var end := skip + 1 + Octets(s[skip]);
        var rest := DecodeNlris(s[end..], addPath);
        if rest.None? then None else Some([Nlri(id, s[skip], s[skip + 1..end])] + rest.value)
  }

  predicate WellFormedNlri(n: Nlri, addPath: bool) {
    |n.octets| == Octets(n.bits) && (n.pathId.Some? <==> addPath) && (addPath ==> n.pathId.value < 0x1_0000_0000)
  }

  lemma DecodeFirstNlri(n: Nlri, addPath: bool, more: seq<byte>)
    requires WellFormedNlri(n, addPath)
    ensures var s, skip := EncodeNlri(n) + more, if addPath then 4 else 0;
            var end := skip + 1 + |n.octets|;
            && |EncodeNlri(n)| == end && s[skip] == n.bits && s[skip + 1..end] == n.octets && s[end..] == more
            && (addPath ==> ReadU32(s[0], s[1], s[2], s[3]) == n.pathId.value)
  {
    if addPath {
      SmallU32(n.pathId.value);
    }
  }

  lemma {:induction false} NlrisRoundTrip(list: seq<Nlri>, addPath: bool)
    requires forall n :: n in list ==> WellFormedNlri(n, addPath)
    ensures DecodeNlris(EncodeNlris(list), addPath) == Some(list)
  {
    if list != [] {
      var n := list[0];
      assert n in list;
      DecodeFirstNlri(n, addPath, EncodeNlris(list[1..]));
      NlrisRoundTrip(list[1..], addPath);
      assert list == [n] + list[1..];
    }
  }

  // --------------------------------------------------------------- messages

  /** The body of an UPDATE: withdrawn routes, path attributes and reachable routes. */
  function UpdateBody(withdrawn: seq<byte>, attrs: seq<byte>, nlris: seq<byte>): seq<byte> {
    U16(|withdrawn|) + withdrawn + U16(|attrs|) + attrs + nlris
  }

  datatype Update = Update(withdrawn: seq<Nlri>, attrs: seq<Attribute>, nlris: seq<Nlri>)

  datatype Parts = Parts(withdrawn: seq<byte>, attrs: seq<byte>, nlris: seq<byte>)

  function SplitBody(body: seq<byte>): Option<Parts> {
    if |body| < 4 then None
    else
      var w := ReadU16(body[0], body[1]);
      if |body| < w + 4 then None
      else
        var a := ReadU16(body[w + 2], body[w + 3]);
        if |body| < w + 4 + a then None
        else Some(Parts(body[2..w + 2], body[w + 4..w + 4 + a], body[w + 4 + a..]))
  }

  lemma PiecesOf(x: seq<byte>, w: seq<byte>, y: seq<byte>, a: seq<byte>, n: seq<byte>)
    requires |x| == 2 && |y| == 2
    ensures var s := x + w + y + a + n;
            && s[0] == x[0] && s[1] == x[1] && s[2..|w| + 2] == w
            && s[|w| + 2] == y[0] && s[|w| + 3] == y[1] && s[|w| + 4..|w| + 4 + |a|] == a && s[|w| + 4 + |a|..] == n
  {
  }

  lemma SplitRoundTrip(withdrawn: seq<byte>, attrs: seq<byte>, nlris: seq<byte>)
    requires |withdrawn| <= 65535 && |attrs| <= 65535
    ensures SplitBody(UpdateBody(withdrawn, attrs, nlris)) == Some(Parts(withdrawn, attrs, nlris))
  {
    SmallU16(|withdrawn|);
    SmallU16(|attrs|);
    PiecesOf(U16(|withdrawn|), withdrawn, U16(|attrs|), attrs, nlris);
  }

  /** The body of an UPDATE message whose header length is its own length. */
  function Unwrap(packet: seq<byte>): Option<seq<byte>> {
    if |packet| < BGP_HEAD_LEN || ReadU16(packet[16], packet[17]) != |packet| || packet[18] != UPDATE then None
    else Some(packet[BGP_HEAD_LEN..])
  }

  lemma UnwrapPacket(body: seq<byte>)
    requires |body| <= MAX_BODY
    ensures Unwrap(BgpPacket(UPDATE, body)) == Some(body)
  {
    PacketHeader(UPDATE, body, []);
    var packet := BgpPacket(UPDATE, body);
    assert packet + [] == packet && packet[BGP_HEAD_LEN..] == body;
  }

  function DecodeParts(parts: Parts, addPath: bool): Option<Update> {
    var withdrawn, nlris := DecodeNlris(parts.withdrawn, addPath), DecodeNlris(parts.nlris, addPath);
    var attrs := DecodeAttrs(parts.attrs);
    if withdrawn.None? || attrs.None? || nlris.None? then None
    else Some(Update(withdrawn.value, attrs.value, nlris.value))
  }

  function DecodeUpdate(packet: seq<byte>, addPath: bool): Option<Update> {
    var body := Unwrap(packet);
    if body.None? then None
    else
      var parts := SplitBody(body.value);
      if parts.None? then None else DecodeParts(parts.value, addPath)
  }

  function BodyOf(u: Update): seq<byte> {
    UpdateBody(EncodeNlris(u.withdrawn), PathAttrs(u.attrs), EncodeNlris(u.nlris))
  }

  ghost predicate EncodableUpdate(u: Update, addPath: bool) {
    && (forall a :: a in u.attrs ==> Encodable(a))
    && (forall n :: n in u.withdrawn ==> WellFormedNlri(n, addPath))
    && (forall n :: n in u.nlris ==> WellFormedNlri(n, addPath))
    && |BodyOf(u)| <= MAX_BODY
  }

  lemma PartsRoundTrip(u: Update, addPath: bool)
    requires EncodableUpdate(u, addPath)
    ensures DecodeParts(Parts(EncodeNlris(u.withdrawn), PathAttrs(u.attrs), EncodeNlris(u.nlris)), addPath)
            == Some(u.(attrs := AllPlain(u.attrs)))
  {
    AttrsRoundTrip(u.attrs);
    NlrisRoundTrip(u.withdrawn, addPath);
    NlrisRoundTrip(u.nlris, addPath);
  }

  /** Any UPDATE assembled from attributes and prefixes is recovered, if it is short enough for its length fields. */
  lemma UpdateRoundTrip(u: Update, addPath: bool)
    requires EncodableUpdate(u, addPath)
    ensures DecodeUpdate(BgpPacket(UPDATE, BodyOf(u)), addPath) == Some(u.(attrs := AllPlain(u.attrs)))
  {
    UnwrapPacket(BodyOf(u));
    SplitRoundTrip(EncodeNlris(u.withdrawn), PathAttrs(u.attrs), EncodeNlris(u.nlris));
    PartsRoundTrip(u, addPath);
  }

  // ---------------------------------------------------------------- builders

  const ORIGIN: byte := 0x01
  const AS_PATH: byte := 0x02
  const NEXT_HOP: byte := 0x03
  const LOCAL_PREF: byte := 0x05
  const COMMUNITY: byte := 0x08
  const MP_REACH_NLRI: byte := 0x0e
  const MP_UNREACH_NLRI: byte := 0x0f

  /** An IPv4 address in text form is read into its four octets. */
  datatype Ipv4 = Ipv4(a: byte, b: byte, c: byte, d: byte)

  function IpBytes(ip: Ipv4): seq<byte> {
    [ip.a, ip.b, ip.c, ip.d]
  }

  function U32s(values: seq<nat>): seq<byte> {
    if values == [] then [] else U32(values[0]) + U32s(values[1..])
  }

  function AsPathAttr(asns: seq<nat>): Attribute {
    Attribute(TRANSITIVE, AS_PATH, [2, |asns| % 256] + U32s(asns))
  }

  datatype Community = Community(asn: nat, local: nat)

  predicate CommunityOk(c: Community) {
    c.asn <= 0xffff && c.local <= 0xffff
  }

  function CommunityBytes(list: seq<Community>): seq<byte> {
    if list == [] then [] else U16(list[0].asn) + U16(list[0].local) + CommunityBytes(list[1..])
  }

  /** A community out of range is refused. */
  function CommunitiesAttr(list: seq<Community>): Option<Attribute> {
    if forall c | c in list :: CommunityOk(c)
    then Some(Attribute(OPTIONAL + TRANSITIVE, COMMUNITY, CommunityBytes(list)))
    else None
  }

  datatype RouteOptions = RouteOptions(nextHop: Ipv4, asns: seq<nat>, localPref: nat, communities: seq<Community>,
                                       addPath: bool, pathIdStart: nat)

  /** Every prefix is announced as a /24. */
  function Ipv4Nlri(prefix: Ipv4, pathId: Option<nat>): Nlri {
    Nlri(pathId, 24, [prefix.a, prefix.b, prefix.c])
  }

  function Ipv4Nlris(prefixes: seq<Ipv4>, o: RouteOptions): seq<Nlri> {
    seq(|prefixes|, i requires 0 <= i < |prefixes| =>
      Ipv4Nlri(prefixes[i], if o.addPath then Some(o.pathIdStart + i) else None))
  }

  function Ipv4Attrs(o: RouteOptions): Option<seq<Attribute>> {
    var always := [Attribute(TRANSITIVE, ORIGIN, [0]), AsPathAttr(o.asns),
                   Attribute(TRANSITIVE, NEXT_HOP, IpBytes(o.nextHop)),
                   Attribute(TRANSITIVE, LOCAL_PREF, U32(o.localPref))];
    if o.communities == [] then Some(always)
    else
      var c := CommunitiesAttr(o.communities);
      if c.None? then None else Some(always + [c.value])
  }

  function Ipv4Update(prefixes: seq<Ipv4>, o: RouteOptions): Option<seq<byte>> {
    var attrs := Ipv4Attrs(o);
    if attrs.None? then None
    else
      var bytes := PathAttrs(attrs.value);
      Some(BgpPacket(UPDATE, U16(0) + U16(|bytes|) + bytes + EncodeNlris(Ipv4Nlris(prefixes, o))))
  }

  function Ipv4Withdraw(prefixes: seq<Ipv4>): seq<byte> {
    var withdrawn := EncodeNlris(seq(|prefixes|, i requires 0 <= i < |prefixes| => Ipv4Nlri(prefixes[i], None)));
    BgpPacket(UPDATE, U16(|withdrawn|) + withdrawn + U16(0))
  }

  lemma {:induction false} U32sLength(values: seq<nat>)
    ensures |U32s(values)| == 4 * |values|
  {
    if values != [] {
      U32sLength(values[1..]);
    }
  }

  lemma {:induction false} CommunityBytesLength(list: seq<Community>)
    ensures |CommunityBytes(list)| == 4 * |list|
  {
    if list != [] {
      CommunityBytesLength(list[1..]);
    }
  }

  /** The attributes of an announcement never carry the extended-length flag themselves. */
  lemma Ipv4AttrsEncodable(o: RouteOptions)
    requires Ipv4Attrs(o).Some? && |o.asns| <= 16383 && |o.communities| <= 16383
    ensures forall a :: a in Ipv4Attrs(o).value ==> Encodable(a) && Plain(a) == a
  {
    U32sLength(o.asns);
    CommunityBytesLength(o.communities);
  }

  lemma PlainAttrs(attrs: seq<Attribute>)
    requires forall a :: a in attrs ==> Plain(a) == a
    ensures AllPlain(attrs) == attrs
  {
    forall i | 0 <= i < |attrs| ensures AllPlain(attrs)[i] == attrs[i] {
      assert attrs[i] in attrs;
    }
  }

  lemma {:induction false} PathAttrsBound(attrs: seq<Attribute>, a: Attribute)
    requires a in attrs
    ensures |a.value| <= |PathAttrs(attrs)|
  {
    if attrs[0] != a {
      PathAttrsBound(attrs[1..], a);
    }
  }

  lemma Ipv4NlrisWellFormed(prefixes: seq<Ipv4>, o: RouteOptions)
    requires o.addPath ==> o.pathIdStart + |prefixes| <= 0x1_0000_0000
    ensures forall n :: n in Ipv4Nlris(prefixes, o) ==> WellFormedNlri(n, o.addPath)
  {
  }

  lemma Ipv4Encodable(prefixes: seq<Ipv4>, o: RouteOptions)
    requires Ipv4Update(prefixes, o).Some? && |Ipv4Update(prefixes, o).value| <= 65535
    requires o.addPath ==> o.pathIdStart + |prefixes| <= 0x1_0000_0000
    ensures var u := Update([], Ipv4Attrs(o).value, Ipv4Nlris(prefixes, o));
            && EncodableUpdate(u, o.addPath) && AllPlain(u.attrs) == u.attrs
            && Ipv4Update(prefixes, o).value == BgpPacket(UPDATE, BodyOf(u))
  {
    var attrs, nlris := Ipv4Attrs(o).value, Ipv4Nlris(prefixes, o);
    AnnouncementIsShort(o, PathAttrs(attrs));
    Ipv4AttrsEncodable(o);
    PlainAttrs(attrs);
    Ipv4NlrisWellFormed(prefixes, o);
    AnnouncementBody(PathAttrs(attrs), EncodeNlris(nlris));
  }

  /** An announcement below 65536 octets is decoded into its attributes and every prefix, with path ids if asked
      for. */
  lemma Ipv4UpdateRoundTrip(prefixes: seq<Ipv4>, o: RouteOptions)
    requires Ipv4Update(prefixes, o).Some? && |Ipv4Update(prefixes, o).value| <= 65535
    requires o.addPath ==> o.pathIdStart + |prefixes| <= 0x1_0000_0000
    ensures DecodeUpdate(Ipv4Update(prefixes, o).value, o.addPath)
            == Some(Update([], Ipv4Attrs(o).value, Ipv4Nlris(prefixes, o)))
  {
    Ipv4Encodable(prefixes, o);
    UpdateRoundTrip(Update([], Ipv4Attrs(o).value, Ipv4Nlris(prefixes, o)), o.addPath);
  }

  lemma AnnouncementBody(attrs: seq<byte>, nlris: seq<byte>)
    ensures U16(0) + U16(|attrs|) + attrs + nlris == UpdateBody([], attrs, nlris)
    ensures U16(0) + U16(|attrs|) + attrs == UpdateBody([], attrs, [])
  {
  }

  lemma AnnouncementIsShort(o: RouteOptions, bytes: seq<byte>)
    requires Ipv4Attrs(o).Some? && bytes == PathAttrs(Ipv4Attrs(o).value) && |bytes| <= 65535 - BGP_HEAD_LEN - 4
    ensures |o.asns| <= 16383 && |o.communities| <= 16383
  {
    var attrs := Ipv4Attrs(o).value;
    assert AsPathAttr(o.asns) == attrs[1];
    PathAttrsBound(attrs, AsPathAttr(o.asns));
    U32sLength(o.asns);
    if o.communities != [] {
      assert CommunitiesAttr(o.communities).value == attrs[4];
      PathAttrsBound(attrs, attrs[4]);
      CommunityBytesLength(o.communities);
    }
  }

  lemma Ipv4WithdrawRoundTrip(prefixes: seq<Ipv4>)
    requires |Ipv4Withdraw(prefixes)| <= 65535
    ensures DecodeUpdate(Ipv4Withdraw(prefixes), false)
            == Some(Update(seq(|prefixes|, i requires 0 <= i < |prefixes| => Ipv4Nlri(prefixes[i], None)), [], []))
  {
    var list := seq(|prefixes|, i requires 0 <= i < |prefixes| => Ipv4Nlri(prefixes[i], None));
    var u := Update(list, [], []);
    assert U16(|EncodeNlris(list)|) + EncodeNlris(list) + U16(0) == BodyOf(u);
    assert AllPlain([]) == [];
    UpdateRoundTrip(u, false);
  }

  // ---------------------------------------------------- multiprotocol routes

  datatype MpReach = MpReach(afi: nat, safi: byte, nextHop: seq<byte>, nlri: seq<byte>)

  function MpReachValue(m: MpReach): seq<byte> {
    U16(m.afi) + [m.safi, |m.nextHop| % 256] + m.nextHop + [0] + m.nlri
  }

  function DecodeMpReach(s: seq<byte>): Option<MpReach> {
    if |s| < 4 then None
    else
      var n: nat := s[3];
      if |s| < 5 + n then None else Some(MpReach(ReadU16(s[0], s[1]), s[2], s[4..4 + n], s[5 + n..]))
  }

  lemma MpReachRoundTrip(m: MpReach)
    requires m.afi <= 0xffff && |m.nextHop| <= 255
    ensures DecodeMpReach(MpReachValue(m)) == Some(m)
    ensures MpReachValue(m)[4 + |m.nextHop|] == 0
  {
    SmallU16(m.afi);
    var s, n := MpReachValue(m), |m.nextHop|;
    assert s[0] == U16(m.afi)[0] && s[1] == U16(m.afi)[1] && s[2] == m.safi && s[3] == n;
    assert s[4..4 + n] == m.nextHop && s[5 + n..] == m.nlri;
  }

  function MultiprotocolAttrs(m: MpReach, localPref: Option<nat>, communities: seq<Community>,
                              additional: seq<Attribute>): Option<seq<Attribute>> {
    var base := [Attribute(TRANSITIVE, ORIGIN, [0]), Attribute(OPTIONAL, MP_REACH_NLRI, MpReachValue(m))] + additional
                + (if localPref.Some? then [Attribute(TRANSITIVE, LOCAL_PREF, U32(localPref.value))] else []);
    if communities == [] then Some(base)
    else
      var c := CommunitiesAttr(communities);
      if c.None? then None else Some(base + [c.value])
  }

  function MultiprotocolUpdate(m: MpReach, localPref: Option<nat>, communities: seq<Community>,
                               additional: seq<Attribute>): Option<seq<byte>> {
    var attrs := MultiprotocolAttrs(m, localPref, communities, additional);
    if attrs.None? then None
    else Some(BgpPacket(UPDATE, U16(0) + U16(|PathAttrs(attrs.value)|) + PathAttrs(attrs.value)))
  }

  lemma MultiprotocolEncodable(m: MpReach, localPref: Option<nat>, communities: seq<Community>,
                               additional: seq<Attribute>)
    requires forall a :: a in additional ==> Encodable(a) && Plain(a) == a
    requires var p := MultiprotocolUpdate(m, localPref, communities, additional); p.Some? && |p.value| <= 65535
    ensures var u := Update([], MultiprotocolAttrs(m, localPref, communities, additional).value, []);
            && EncodableUpdate(u, false) && AllPlain(u.attrs) == u.attrs
            && MultiprotocolUpdate(m, localPref, communities, additional).value == BgpPacket(UPDATE, BodyOf(u))
  {
    var attrs := MultiprotocolAttrs(m, localPref, communities, additional).value;
    forall a | a in attrs ensures Encodable(a) && Plain(a) == a {
      PathAttrsBound(attrs, a);
      MultiprotocolPlain(m, localPref, communities, additional, a);
    }
    PlainAttrs(attrs);
    AnnouncementBody(PathAttrs(attrs), []);
  }

  lemma MultiprotocolPlain(m: MpReach, localPref: Option<nat>, communities: seq<Community>,
                           additional: seq<Attribute>, a: Attribute)
    requires forall x :: x in additional ==> Plain(x) == x && Encodable(x)
    requires MultiprotocolAttrs(m, localPref, communities, additional).Some?
             && a in MultiprotocolAttrs(m, localPref, communities, additional).value
    ensures a in additional || !HasExtended(a.flags)
  {
  }

  /** A multiprotocol announcement below 65536 octets is decoded into its attributes, the second of which yields
      family, next hop and routes again, in either header width. */
  lemma MultiprotocolRoundTrip(m: MpReach, localPref: Option<nat>, communities: seq<Community>,
                               additional: seq<Attribute>)
    requires m.afi <= 0xffff && |m.nextHop| <= 255
    requires forall a :: a in additional ==> Encodable(a) && Plain(a) == a
    requires var p := MultiprotocolUpdate(m, localPref, communities, additional); p.Some? && |p.value| <= 65535
    ensures DecodeUpdate(MultiprotocolUpdate(m, localPref, communities, additional).value, false)
            == Some(Update([], MultiprotocolAttrs(m, localPref, communities, additional).value, []))
    ensures var reach := MultiprotocolAttrs(m, localPref, communities, additional).value[1];
            reach.kind == MP_REACH_NLRI && DecodeMpReach(reach.value) == Some(m)
  {
    MultiprotocolEncodable(m, localPref, communities, additional);
    UpdateRoundTrip(Update([], MultiprotocolAttrs(m, localPref, communities, additional).value, []), false);
    MpReachRoundTrip(m);
  }

  function MpUnreachValue(afi: nat, safi: byte, nlri: seq<byte>): seq<byte> {
    U16(afi) + [safi] + nlri
  }

  /** Family and routes. */
  function DecodeMpUnreach(s: seq<byte>): Option<(nat, byte, seq<byte>)> {
    if |s| < 3 then None else Some((ReadU16(s[0], s[1]), s[2], s[3..]))
  }

  /** A multiprotocol withdrawal: family and routes in one MP_UNREACH_NLRI attribute. */
  function MultiprotocolWithdraw(afi: nat, safi: byte, nlri: seq<byte>): seq<byte> {
    var attr := PathAttr(Attribute(OPTIONAL, MP_UNREACH_NLRI, MpUnreachValue(afi, safi, nlri)));
    BgpPacket(UPDATE, U16(0) + U16(|attr|) + attr)
  }

  /** A withdrawal below 65536 octets is decoded into one attribute, which yields routes and family, modulo 2^16,
      again. */
  lemma MultiprotocolWithdrawRoundTrip(afi: nat, safi: byte, nlri: seq<byte>)
    requires |MultiprotocolWithdraw(afi, safi, nlri)| <= 65535
    ensures var a := Attribute(OPTIONAL, MP_UNREACH_NLRI, MpUnreachValue(afi, safi, nlri));
            && DecodeUpdate(MultiprotocolWithdraw(afi, safi, nlri), false) == Some(Update([], [a], []))
            && DecodeMpUnreach(a.value) == Some((afi % 0x1_0000, safi, nlri))
  {
    var a := Attribute(OPTIONAL, MP_UNREACH_NLRI, MpUnreachValue(afi, safi, nlri));
    assert PathAttrs([a]) == PathAttr(a) by {
      assert [a][1..] == [] && PathAttr(a) + [] == PathAttr(a);
    }
    AnnouncementBody(PathAttr(a), []);
    PlainAttrs([a]);
    UpdateRoundTrip(Update([], [a], []), false);
    MpUnreachRoundTrip(afi, safi, nlri);
  }

  lemma MpUnreachRoundTrip(afi: nat, safi: byte, nlri: seq<byte>)
    ensures DecodeMpUnreach(MpUnreachValue(afi, safi, nlri)) == Some((afi % 0x1_0000, safi, nlri))
  {
    ReadBackU16(afi);
    var s := MpUnreachValue(afi, safi, nlri);
    assert s[0] == U16(afi)[0] && s[1] == U16(afi)[1] && s[2] == safi && s[3..] == nlri;
  }
}
