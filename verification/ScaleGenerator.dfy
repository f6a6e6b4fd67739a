/** The generator loops of the BMP load generator, and when they give up. */
module ScaleGenerator {
  import opened Options
  import opened Bytes
  import opened BgpUpdate
  import opened ScaleUpdates
  import opened ScaleStream
  import opened ScaleReplay
  import opened ScaleTables

  /** A community with an AS number above 16 bits ends the stream. */
  predicate Refused(s: Source) {
    !CommunityOk(s.shared.community)
  }

  lemma RefusedIff(s: Source, prefixes: seq<seq<byte>>)
    requires Sized(s.family, prefixes)
    ensures Announcement(s, prefixes).None? <==> Refused(s)
  {
    var c := s.shared.community;
    assert c in [c] && forall x :: x in [c] ==> x == c;
  }

  /** Some index below `total` is beyond the IPv4 space. */
  predicate Exhausted(s: Source, total: nat) {
    total > 0 && !Accepted(s, total - 1)
  }

  lemma AcceptedBelow(s: Source, i: nat, j: nat)
    requires i <= j && Accepted(s, j)
    ensures Accepted(s, i)
  {
    if IsIpv4(s.family) {
      assert GlobalIndex(s, i) <= GlobalIndex(s, j);
    }
  }

  predicate PeerFails(o: ScaleOptions, peerIndex: nat)
    requires o.Parsed()
  {
    RoutesPerFamily(o) > 0
    && exists f | f in o.families ::
      Refused(PeerSource(o, peerIndex, f)) || Exhausted(PeerSource(o, peerIndex, f), RoutesPerFamily(o))
  }

  predicate LocRibFails(o: ScaleOptions)
    requires o.Parsed()
  {
    exists f | f in o.families :: Exhausted(LocRibSource(o, f), o.locRibRoutes)
  }

  predicate ScenarioFails(o: ScaleOptions)
    requires o.Parsed()
  {
    (exists p | 0 <= p < o.peers :: PeerFails(o, p)) || LocRibFails(o)
  }

  // ------------------------------------------------------------------ source

  /** The prefixes of one UPDATE, pushed one by one. */
  method BuildPrefixes(s: Source, start: nat, count: nat) returns (r: Option<seq<seq<byte>>>)
    ensures r == if forall i: nat | i < start + count && i >= start :: Accepted(s, i)
            then Some(Prefixes(s, start, count)) else None
  {
    var prefixes: seq<seq<byte>> := [];
    var index := start;
    while index < start + count
      invariant start <= index <= start + count
      invariant prefixes == Prefixes(s, start, index - start)
      invariant forall i: nat :: start <= i < index ==> Accepted(s, i)
    {
      if !Accepted(s, index) {
        return None;
      }
      prefixes := prefixes + [Prefix(s, index)];
      index := index + 1;
    }
    return Some(prefixes);
  }

  /** Every prefix of the batch and its community can be built. */
  predicate CanBuild(s: Source, start: nat, count: nat, withdraw: bool) {
    (forall i: nat | i < start + count && i >= start :: Accepted(s, i)) && (withdraw || !Refused(s))
  }

  /** The message for one batch, unless a prefix or the community cannot be built. */
  method BuildBatch(peer: Peer, s: Source, start: nat, count: nat, withdraw: bool) returns (r: Option<Message>)
    ensures r == if CanBuild(s, start, count, withdraw)
            then Some(BatchMessage(peer, s, Prefixes(s, start, count), withdraw)) else None
  {
    var prefixes := BuildPrefixes(s, start, count);
    if prefixes.None? {
      return None;
    }
    if withdraw {
      return Some(RouteMonitoring(peer, Withdrawn(s, prefixes.value), -|prefixes.value|));
    }
    RefusedIff(s, prefixes.value);
    if Announcement(s, prefixes.value).None? {
      return None;
    }
    return Some(RouteMonitoring(peer, Announced(s, prefixes.value), |prefixes.value|));
  }

  /** One message per batch. */
  method GenerateBatches(peer: Peer, s: Source, total: nat, batch: nat,
                         withdraw: bool) returns (r: Option<seq<Message>>)
    requires batch >= 1
    ensures r == if total > 0 && !Built(s, total, withdraw) then None
            else Some(Batches(peer, s, 0, total, batch, withdraw))
  {
    var messages: seq<Message> := [];
    var start := 0;
    while start < total
      invariant Ahead(messages, peer, s, start, total, batch, withdraw)
      invariant start > 0 ==> Built(s, Min(start, total), withdraw)
      decreases if start < total then total - start else 0
    {
      var next := AddBatch(messages, peer, s, start, total, batch, withdraw);
      if next.None? {
        return None;
      }
      messages := next.value;
      start := start + batch;
    }
    AllBatches(messages, peer, s, start, total, batch, withdraw);
    return Some(messages);
  }

  /** The batches from `start` on are still missing. */
  ghost predicate Ahead(messages: seq<Message>, peer: Peer, s: Source, start: nat, total: nat, batch: nat,
                        withdraw: bool)
    requires batch >= 1
  {
    messages + Batches(peer, s, start, total, batch, withdraw) == Batches(peer, s, 0, total, batch, withdraw)
  }

  lemma AllBatches(messages: seq<Message>, peer: Peer, s: Source, start: nat, total: nat, batch: nat,
                   withdraw: bool)
    requires batch >= 1 && start >= total && Ahead(messages, peer, s, start, total, batch, withdraw)
    ensures messages == Batches(peer, s, 0, total, batch, withdraw)
  {
    assert messages + [] == messages;
  }

  /** Everything below `total` can be built. */
  predicate Built(s: Source, total: nat, withdraw: bool) {
    (withdraw || !Refused(s)) && !Exhausted(s, total)
  }

  lemma BuiltIff(s: Source, start: nat, count: nat, total: nat, withdraw: bool)
    requires start + count <= total && count > 0
    ensures CanBuild(s, start, count, withdraw) <==> Built(s, start + count, withdraw)
    ensures Built(s, total, withdraw) ==> Built(s, start + count, withdraw)
  {
    var last := start + count - 1;
    if Accepted(s, last) {
      forall i: nat | start <= i <= last ensures Accepted(s, i) {
        AcceptedBelow(s, i, last);
      }
    }
    if Accepted(s, total - 1) {
      AcceptedBelow(s, last, total - 1);
    }
  }

  /** The body of the batch loop. */
  method AddBatch(messages: seq<Message>, peer: Peer, s: Source, start: nat, total: nat, batch: nat,
                  withdraw: bool) returns (r: Option<seq<Message>>)
    requires batch >= 1 && start < total && Ahead(messages, peer, s, start, total, batch, withdraw)
    ensures r.Some? <==> Built(s, Min(start + batch, total), withdraw)
    ensures r.None? ==> !Built(s, total, withdraw)
    ensures r.Some? ==> Ahead(r.value, peer, s, start + batch, total, batch, withdraw)
  {
    var count := Min(batch, total - start);
    var m := BuildBatch(peer, s, start, count, withdraw);
    BuiltIff(s, start, count, total, withdraw);
    if m.None? {
      return None;
    }
    Reassociate(messages, m.value, Batches(peer, s, start + batch, total, batch, withdraw));
    return Some(messages + [m.value]);
  }

  lemma Reassociate(a: seq<Message>, m: Message, b: seq<Message>)
    ensures a + ([m] + b) == a + [m] + b
  {
  }

  method GenerateFamily(peer: Peer, s: Source, count: nat, withdrawn: nat,
                        batch: nat) returns (r: Option<seq<Message>>)
    requires batch >= 1 && withdrawn <= count
    ensures r == if count > 0 && (Refused(s) || Exhausted(s, count)) then None
            else Some(FamilyStream(peer, s, count, withdrawn, batch))
  {
    var announces := GenerateBatches(peer, s, count, batch, false);
    if announces.None? {
      return None;
    }
    if withdrawn > 0 {
      AcceptedBelow(s, withdrawn - 1, count - 1);
    }
    var withdraws := GenerateBatches(peer, s, withdrawn, batch, true);
    return Some(announces.value + [EndOfRib(peer, s.family)] + withdraws.value);
  }

  method GeneratePeerFamilies(o: ScaleOptions, peerIndex: nat) returns (r: Option<seq<Message>>)
    requires o.Parsed()
    ensures r == if PeerFails(o, peerIndex) then None else Some(PeerFamilies(o, peerIndex, o.families))
  {
    var n, w := RoutesPerFamily(o), WithdrawCount(o);
    WithdrawAtMostAll(o);
    var middle: seq<Message> := [];
    var i := 0;
    while i < |o.families|
      invariant 0 <= i <= |o.families|
      invariant middle + PeerFamilies(o, peerIndex, o.families[i..]) == PeerFamilies(o, peerIndex, o.families)
      invariant forall j :: 0 <= j < i && n > 0 ==>
          var s := PeerSource(o, peerIndex, o.families[j]); !Refused(s) && !Exhausted(s, n)
    {
      var s := PeerSource(o, peerIndex, o.families[i]);
      var part := GenerateFamily(PeerKey(peerIndex), s, n, w, o.batch);
      if part.None? {
        assert o.families[i] in o.families;
        return None;
      }
      assert o.families[i..][1..] == o.families[i + 1..];
      Regroup(middle, part.value, PeerFamilies(o, peerIndex, o.families[i + 1..]));
      middle := middle + part.value;
      i := i + 1;
    }
    assert middle + [] == middle;
    return Some(middle);
  }

  method GeneratePeer(o: ScaleOptions, peerIndex: nat) returns (r: Option<seq<Message>>)
    requires o.Parsed()
    ensures r == if PeerFails(o, peerIndex) then None else Some(PeerStream(o, peerIndex))
  {
    var middle := GeneratePeerFamilies(o, peerIndex);
    if middle.None? {
      return None;
    }
    var peer := PeerKey(peerIndex);
    return Some([PeerUp(peer)] + middle.value + [Report(peer, RoutesPerFamily(o), |o.families|)]);
  }

  lemma Regroup(a: seq<Message>, b: seq<Message>, c: seq<Message>)
    ensures a + (b + c) == a + b + c
  {
  }

  method GenerateLocRib(o: ScaleOptions) returns (r: Option<seq<Message>>)
    requires o.Parsed()
    ensures r == if LocRibFails(o) then None else Some(LocRibStream(o))
  {
    var n := o.locRibRoutes;
    var middle: seq<Message> := [];
    var i := 0;
    while i < |o.families|
      invariant 0 <= i <= |o.families|
      invariant middle + LocRibFamilies(o, o.families[i..]) == LocRibFamilies(o, o.families)
      invariant forall j :: 0 <= j < i ==> !Exhausted(LocRibSource(o, o.families[j]), n)
    {
      var s := LocRibSource(o, o.families[i]);
      var part := GenerateFamily(LocRib, s, n, 0, o.batch);
      if part.None? {
        assert o.families[i] in o.families;
        return None;
      }
      assert o.families[i..][1..] == o.families[i + 1..];
      Regroup(middle, part.value, LocRibFamilies(o, o.families[i + 1..]));
      middle := middle + part.value;
      i := i + 1;
    }
    assert middle + [] == middle;
    return Some([PeerUp(LocRib)] + middle + [Report(LocRib, n, |o.families|)]);
  }

  lemma NextPeer(o: ScaleOptions, p: nat, messages: seq<Message>, peer: seq<Message>)
    requires o.Parsed() && messages == PeersStream(o, p) && peer == PeerStream(o, p)
    ensures messages + peer + [PeerDone(PeerKey(p))] == PeersStream(o, p + 1)
  {
  }

  method GeneratePeers(o: ScaleOptions) returns (r: Option<seq<Message>>)
    requires o.Parsed()
    ensures r == if exists p | 0 <= p < o.peers :: PeerFails(o, p) then None else Some(PeersStream(o, o.peers))
  {
    var messages: seq<Message> := [];
    var p := 0;
    while p < o.peers
      invariant 0 <= p <= o.peers
      invariant messages == PeersStream(o, p)
      invariant forall q: nat :: q < p ==> !PeerFails(o, q)
    {
      var peer := GeneratePeer(o, p);
      if peer.None? {
        return None;
      }
      NextPeer(o, p, messages, peer.value);
      messages := messages + peer.value + [PeerDone(PeerKey(p))];
      p := p + 1;
    }
    return Some(messages);
  }

  method GenerateScenario(o: ScaleOptions) returns (r: Option<seq<Message>>)
    requires o.Parsed()
    ensures r == if ScenarioFails(o) then None else Some(Scenario(o))
  {
    var peers := GeneratePeers(o);
    if peers.None? {
      return None;
    }
    var locRib := GenerateLocRib(o);
    if locRib.None? {
      return None;
    }
    return Some([Initiation] + peers.value + locRib.value);
  }

  // ---------------------------------------------------------------- theorems

  /** With routes to announce, the generator gives up at the 1025th peer, whose AS number no longer fits a
      community. */
  lemma AtMost1024Peers(o: ScaleOptions)
    requires o.Parsed() && RoutesPerFamily(o) > 0 && o.peers > 1024
    ensures ScenarioFails(o)
  {
    assert o.families[0] in o.families && Refused(PeerSource(o, 1024, o.families[0]));
    assert PeerFails(o, 1024);
  }

  lemma SucceededMeansInRange(o: ScaleOptions, s: Source, total: nat)
    requires !Exhausted(s, total)
    requires !IsIpv4(s.family) && total > 0 ==> GlobalIndex(s, total - 1) < 0x1_0000_0000
    ensures forall i: nat :: i < total ==> InRange(s, i)
  {
    forall i: nat | i < total ensures InRange(s, i) {
      if IsIpv4(s.family) {
        AcceptedBelow(s, i, total - 1);
      }
    }
  }

  /** The highest index that any IPv6 prefix is made from fits four octets: that of the last peer's block or of
      the Loc-RIB's. */
  ghost predicate Ipv6IndexesFit(o: ScaleOptions)
    requires o.Parsed()
  {
    forall f :: f in o.families && !IsIpv4(f) ==>
      && (RoutesPerFamily(o) > 0 ==> GlobalIndex(PeerSource(o, o.peers - 1, f), RoutesPerFamily(o) - 1) < 0x1_0000_0000)
      && (o.locRibRoutes > 0 ==> GlobalIndex(LocRibSource(o, f), o.locRibRoutes - 1) < 0x1_0000_0000)
  }

  lemma IndexBound(block: nat, lastBlock: nat, size: nat, i: nat, j: nat)
    requires block <= lastBlock && i <= j
    ensures block * size + i <= lastBlock * size + j
  {
    assert (lastBlock - block) * size == lastBlock * size - block * size;
  }

  lemma SuccessMeansSent(o: ScaleOptions)
    requires o.Parsed() && !ScenarioFails(o) && (RoutesPerFamily(o) > 0 || o.peers <= 64000)
    ensures o.peers <= 64000 && CommunitiesFit(o)
  {
    if RoutesPerFamily(o) > 0 && o.peers > 1024 {
      AtMost1024Peers(o);
    }
  }

  /** Whenever the generator succeeds and the IPv6 indexes stay below 2^32, decoding what it generated gives a peer's
      planned table exactly when the planned routes get through, and the Loc-RIB's exactly when every batch has room.
      Only peers without any routes can be so many that their addresses repeat. */
  lemma GeneratedStreamGivesPlannedTablesIff(o: ScaleOptions, p: nat, f: Family)
    requires o.Parsed() && !ScenarioFails(o) && (RoutesPerFamily(o) > 0 || o.peers <= 64000)
    requires Ipv6IndexesFit(o) && p < o.peers && f in o.families
    ensures var t := Replay(map[], Scenario(o));
            && (At(t, Key(PeerKey(p), f)) == Planned(o, p, f)
                <==> Survives(RoutesPerFamily(o), WithdrawCount(o), o.batch, Capacity(f, 3, false)))
            && (At(t, Key(LocRib, f)) == PlannedLocRib(o, f)
                <==> Min(o.batch, o.locRibRoutes) <= Capacity(f, 2, false))
  {
    SuccessMeansSent(o);
    PeerInRangeOnSuccess(o, p);
    forall f | f in o.families ensures forall i: nat :: i < o.locRibRoutes ==> InRange(LocRibSource(o, f), i) {
      SucceededMeansInRange(o, LocRibSource(o, f), o.locRibRoutes);
    }
    ScenarioGivesPlannedTablesIff(o, p, f);
  }

  /** The generator does not refuse the options whose every announcement is lost. */
  lemma LargeBatchSucceeds()
    ensures !ScenarioFails(LargeBatch())
  {
  }

  lemma PeerInRangeOnSuccess(o: ScaleOptions, p: nat)
    requires o.Parsed() && !PeerFails(o, p) && p < o.peers && Ipv6IndexesFit(o)
    ensures PeerInRange(o, p)
  {
    var n := RoutesPerFamily(o);
    forall f | f in o.families ensures forall i: nat :: i < n ==> InRange(PeerSource(o, p, f), i) {
      if n > 0 {
        var s, last := PeerSource(o, p, f), PeerSource(o, o.peers - 1, f);
        IndexBound(s.block, last.block, s.blockSize, n - 1, n - 1);
        SucceededMeansInRange(o, s, n);
      }
    }
  }
}
