/** The tables a receiver of the load generator's stream ends with, against the plan and against the statistics the
    generator reports. */
module ScaleTables {
  import opened ScaleUpdates
  import opened ScaleStream
  import opened ScaleReplay

  /** The table a peer and family is planned to end with. */
  ghost function Planned(o: ScaleOptions, peerIndex: nat, f: Family): set<Route>
    requires o.Parsed()
  {
    Span(PeerSource(o, peerIndex, f), WithdrawCount(o), RoutesPerFamily(o))
  }

  ghost function PlannedLocRib(o: ScaleOptions, f: Family): set<Route>
    requires o.Parsed()
  {
    Span(LocRibSource(o, f), 0, o.locRibRoutes)
  }

  /** The table that gets through. */
  ghost function Arriving(o: ScaleOptions, peerIndex: nat, f: Family): set<Route>
    requires o.Parsed()
  {
    Delivered(PeerSource(o, peerIndex, f), RoutesPerFamily(o), WithdrawCount(o), o.batch)
  }

  ghost function ArrivingLocRib(o: ScaleOptions, f: Family): set<Route>
    requires o.Parsed()
  {
    Delivered(LocRibSource(o, f), o.locRibRoutes, 0, o.batch)
  }

  ghost function PeerTables(o: ScaleOptions, peerIndex: nat): Tables
    requires o.Parsed()
  {
    f => Arriving(o, peerIndex, f)
  }

  ghost function LocRibTables(o: ScaleOptions): Tables
    requires o.Parsed()
  {
    f => ArrivingLocRib(o, f)
  }

  /** Every peer's community fits, or there is nothing to announce. */
  predicate CommunitiesFit(o: ScaleOptions)
    requires o.Parsed()
  {
    RoutesPerFamily(o) > 0 ==> FIRST_PEER_AS + o.peers <= 0x1_0000
  }

  // ------------------------------------------------------------------ replay

  lemma {:induction false} NoFamily(peer: Peer, want: Tables)
    ensures FillsAll([], peer, [], want)
  {
  }

  lemma {:induction false} PeerFamiliesFill(o: ScaleOptions, p: nat, families: seq<Family>)
    requires o.Parsed() && CommunitiesFit(o) && p < o.peers
    ensures FillsAll(PeerFamilies(o, p, families), PeerKey(p), families, PeerTables(o, p))
  {
    if families == [] {
      NoFamily(PeerKey(p), PeerTables(o, p));
    } else {
      var s, n, w := PeerSource(o, p, families[0]), RoutesPerFamily(o), WithdrawCount(o);
      var first := FamilyStream(PeerKey(p), s, n, w, o.batch);
      FamilyReplay(PeerKey(p), s, n, w, o.batch, first, Arriving(o, p, families[0]));
      PeerFamiliesFill(o, p, families[1..]);
      FillsMore(first, PeerFamilies(o, p, families[1..]), PeerKey(p), families,
                PeerTables(o, p));
    }
  }

  lemma PeerFills(o: ScaleOptions, p: nat)
    requires o.Parsed() && CommunitiesFit(o) && p < o.peers
    ensures FillsAll(PeerStream(o, p), PeerKey(p), o.families, PeerTables(o, p))
  {
    PeerFamiliesFill(o, p, o.families);
    FillsWithin(PeerUp(PeerKey(p)), PeerFamilies(o, p, o.families),
                Report(PeerKey(p), RoutesPerFamily(o), |o.families|), PeerKey(p), o.families, PeerTables(o, p));
  }

  lemma {:induction false} LocRibFamiliesFill(o: ScaleOptions, families: seq<Family>)
    requires o.Parsed()
    ensures FillsAll(LocRibFamilies(o, families), LocRib, families, LocRibTables(o))
  {
    if families == [] {
      NoFamily(LocRib, LocRibTables(o));
    } else {
      var s, n := LocRibSource(o, families[0]), o.locRibRoutes;
      var first := FamilyStream(LocRib, s, n, 0, o.batch);
      FamilyReplay(LocRib, s, n, 0, o.batch, first, ArrivingLocRib(o, families[0]));
      LocRibFamiliesFill(o, families[1..]);
      FillsMore(first, LocRibFamilies(o, families[1..]), LocRib, families,
                LocRibTables(o));
    }
  }

  lemma LocRibFills(o: ScaleOptions)
    requires o.Parsed()
    ensures FillsAll(LocRibStream(o), LocRib, o.families, LocRibTables(o))
  {
    LocRibFamiliesFill(o, o.families);
    FillsWithin(PeerUp(LocRib), LocRibFamilies(o, o.families), Report(LocRib, o.locRibRoutes, |o.families|), LocRib,
                o.families, LocRibTables(o));
  }

  /** Up to 64000 peers have distinct addresses. */
  lemma PeerKeysDistinct(p: nat, q: nat)
    requires p < 64000 && q < 64000 && PeerKey(p) == PeerKey(q)
    ensures p == q
  {
  }

  /** The tables of one peer are filled and no others. */
  ghost predicate Has(t: Table, peer: Peer, families: seq<Family>, want: Tables) {
    forall f :: At(t, Key(peer, f)) == if f in families then want(f) else {}
  }

  /** Nothing but the tables of the first `n` peers. */
  ghost predicate OnlyPeers(t: Table, n: nat) {
    forall k: Key :: (forall p: nat :: p < n ==> k.peer != PeerKey(p)) ==> At(t, k) == {}
  }

  /** What the table holds after the first `n` peers. */
  ghost predicate PeersDone(t: Table, families: seq<Family>, want: nat -> Tables, n: nat) {
    && (forall p: nat :: p < n ==> Has(t, PeerKey(p), families, want(p)))
    && OnlyPeers(t, n)
  }

  lemma PeersStep(before: Table, after: Table, families: seq<Family>, want: nat -> Tables, n: nat)
    requires n < 64000 && PeersDone(before, families, want, n)
    requires Ready(before, PeerKey(n), want(n)) ==> Filled(before, after, PeerKey(n), families, want(n))
    ensures PeersDone(after, families, want, n + 1)
  {
    forall p: nat | p < n ensures PeerKey(n) != PeerKey(p) {
      if PeerKey(n) == PeerKey(p) {
        PeerKeysDistinct(n, p);
      }
    }
    forall f ensures At(before, Key(PeerKey(n), f)) == {} {
    }
    assert Filled(before, after, PeerKey(n), families, want(n));
    forall p: nat | p <= n ensures Has(after, PeerKey(p), families, want(p)) {
      if p < n {
        assert Has(before, PeerKey(p), families, want(p));
      }
    }
  }

  lemma ReplayThen(a: seq<Message>, b: seq<Message>, last: Message)
    requires !last.RouteMonitoring?
    ensures Replay(map[], a + b + [last]) == Replay(Replay(map[], a), b)
  {
    ReplayAppend(map[], a + b, [last]);
    ReplayAppend(map[], a, b);
  }

  lemma NoPeers(o: ScaleOptions, want: nat -> Tables, t: Table)
    requires o.Parsed() && t == Replay(map[], PeersStream(o, 0))
    ensures PeersDone(t, o.families, want, 0)
  {
  }

  lemma {:induction false} PeersReplay(o: ScaleOptions, n: nat, want: nat -> Tables, t: Table)
    requires o.Parsed() && n <= 64000 && CommunitiesFit(o) && n <= o.peers
    requires (forall p: nat :: want(p) == PeerTables(o, p)) && t == Replay(map[], PeersStream(o, n))
    ensures PeersDone(t, o.families, want, n)
  {
    if n == 0 {
      NoPeers(o, want, t);
    } else {
      var before := Replay(map[], PeersStream(o, n - 1));
      PeersReplay(o, n - 1, want, before);
      NextPeerFills(o, n - 1, before, t, want(n - 1));
      PeersStep(before, t, o.families, want, n - 1);
    }
  }

  lemma NextPeerFills(o: ScaleOptions, n: nat, before: Table, t: Table, want: Tables)
    requires o.Parsed() && CommunitiesFit(o) && n < o.peers && want == PeerTables(o, n)
    requires before == Replay(map[], PeersStream(o, n)) && t == Replay(map[], PeersStream(o, n + 1))
    ensures Ready(before, PeerKey(n), want) ==> Filled(before, t, PeerKey(n), o.families, want)
  {
    PeerFills(o, n);
    FillsFrom(PeerStream(o, n), PeerKey(n), o.families, want, before);
    ReplayThen(PeersStream(o, n), PeerStream(o, n), PeerDone(PeerKey(n)));
  }

  lemma FillsFrom(ms: seq<Message>, peer: Peer, families: seq<Family>, want: Tables, t: Table)
    requires FillsAll(ms, peer, families, want)
    ensures Ready(t, peer, want) ==> Filled(t, Replay(t, ms), peer, families, want)
  {
  }

  lemma ReplayParts(peers: seq<Message>, locRib: seq<Message>)
    ensures Replay(map[], [Initiation] + peers + locRib) == Replay(Replay(map[], peers), locRib)
  {
    ReplayAppend(map[], [Initiation] + peers, locRib);
    ReplayAppend(map[], [Initiation], peers);
  }

  /** Every peer and the Loc-RIB have what gets through, and nobody else has anything. */
  ghost predicate AllDone(t: Table, families: seq<Family>, want: nat -> Tables, n: nat, locRib: Tables) {
    && (forall p: nat :: p < n ==> Has(t, PeerKey(p), families, want(p))) && Has(t, LocRib, families, locRib)
    && (forall k: Key :: k.peer != LocRib && (forall p: nat :: p < n ==> k.peer != PeerKey(p)) ==> At(t, k) == {})
  }

  lemma LastStep(before: Table, after: Table, families: seq<Family>, want: nat -> Tables, n: nat, locRib: Tables)
    requires PeersDone(before, families, want, n)
    requires Ready(before, LocRib, locRib) ==> Filled(before, after, LocRib, families, locRib)
    ensures AllDone(after, families, want, n, locRib)
  {
    forall f ensures At(before, Key(LocRib, f)) == {} {
    }
    assert Filled(before, after, LocRib, families, locRib);
    forall p: nat | p < n ensures Has(after, PeerKey(p), families, want(p)) {
      assert Has(before, PeerKey(p), families, want(p));
    }
  }

  /** Decoding the octets of the whole stream leaves every peer and the Loc-RIB with what gets through, and nothing
      else. */
  lemma ScenarioGivesTables(o: ScaleOptions)
    requires o.Parsed() && o.peers <= 64000 && CommunitiesFit(o)
    ensures AllDone(Replay(map[], Scenario(o)), o.families, p => PeerTables(o, p), o.peers, LocRibTables(o))
  {
    var want: nat -> Tables := p => PeerTables(o, p);
    var peers := Replay(map[], PeersStream(o, o.peers));
    PeersReplay(o, o.peers, want, peers);
    LocRibFills(o);
    ReplayParts(PeersStream(o, o.peers), LocRibStream(o));
    LastStep(peers, Replay(peers, LocRibStream(o)), o.families, want, o.peers, LocRibTables(o));
  }

  lemma PeerTableIs(o: ScaleOptions, p: nat, f: Family, t: Table)
    requires o.Parsed() && o.peers <= 64000 && CommunitiesFit(o) && p < o.peers && t == Replay(map[], Scenario(o))
    ensures At(t, Key(PeerKey(p), f)) == if f in o.families then Arriving(o, p, f) else {}
  {
    ScenarioGivesTables(o);
    var want: nat -> Tables := p => PeerTables(o, p);
    assert Has(t, PeerKey(p), o.families, want(p));
  }

  lemma LocRibTableIs(o: ScaleOptions, f: Family, t: Table)
    requires o.Parsed() && o.peers <= 64000 && CommunitiesFit(o) && t == Replay(map[], Scenario(o))
    ensures At(t, Key(LocRib, f)) == if f in o.families then ArrivingLocRib(o, f) else {}
  {
    ScenarioGivesTables(o);
  }

  // -------------------------------------------------------------------- plan

  lemma ArrivingIsPlannedIff(o: ScaleOptions, p: nat, f: Family)
    requires o.Parsed() && f in o.families && PeerInRange(o, p)
    ensures Arriving(o, p, f) == Planned(o, p, f)
            <==> Survives(RoutesPerFamily(o), WithdrawCount(o), o.batch, Capacity(f, 3, false))
  {
    WithdrawAtMostAll(o);
    DeliveredIsPlannedIff(PeerSource(o, p, f), RoutesPerFamily(o), WithdrawCount(o), o.batch);
  }

  lemma ArrivingLocRibIsPlannedIff(o: ScaleOptions, f: Family)
    requires o.Parsed() && f in o.families && LocRibInRange(o)
    ensures ArrivingLocRib(o, f) == PlannedLocRib(o, f) <==> Min(o.batch, o.locRibRoutes) <= Capacity(f, 2, false)
  {
    DeliveredIsPlannedIff(LocRibSource(o, f), o.locRibRoutes, 0, o.batch);
    SurvivesWhole(o.locRibRoutes, o.batch, Capacity(f, 2, false));
  }

  /** A peer's table, decoded from the octets, is the planned one, from the withdraw count up to the per-family count,
      exactly when the planned routes get through UPDATEs with a path of three AS numbers; the Loc-RIB's, with two,
      exactly when every batch has room. */
  lemma ScenarioGivesPlannedTablesIff(o: ScaleOptions, p: nat, f: Family)
    requires o.Parsed() && o.peers <= 64000 && CommunitiesFit(o) && p < o.peers && f in o.families
    requires PeerInRange(o, p) && LocRibInRange(o)
    ensures var t := Replay(map[], Scenario(o));
            && (At(t, Key(PeerKey(p), f)) == Planned(o, p, f)
                <==> Survives(RoutesPerFamily(o), WithdrawCount(o), o.batch, Capacity(f, 3, false)))
            && (At(t, Key(LocRib, f)) == PlannedLocRib(o, f)
                <==> Min(o.batch, o.locRibRoutes) <= Capacity(f, 2, false))
  {
    var t := Replay(map[], Scenario(o));
    PeerTableIs(o, p, f, t);
    LocRibTableIs(o, f, t);
    ArrivingIsPlannedIff(o, p, f);
    ArrivingLocRibIsPlannedIff(o, f);
  }

  /** Families and peers that are not asked for have no table. */
  lemma NothingElse(o: ScaleOptions, k: Key)
    requires o.Parsed() && o.peers <= 64000 && CommunitiesFit(o)
    requires k.family !in o.families || (k.peer != LocRib && forall p: nat :: p < o.peers ==> k.peer != PeerKey(p))
    ensures At(Replay(map[], Scenario(o)), k) == {}
  {
    ScenarioGivesTables(o);
    var t, want: nat -> Tables := Replay(map[], Scenario(o)), p => PeerTables(o, p);
    if p: nat :| p < o.peers && k.peer == PeerKey(p) {
      assert Has(t, PeerKey(p), o.families, want(p));
    }
  }

  /** If whole batches have no room and there is no other, nothing is carried. */
  lemma NothingCarried(s: Source, count: nat, batch: nat, room: nat)
    requires batch > room && count > 0 && count % batch == 0
    ensures Carried(s, 0, count, batch, room) == {}
  {
    LastBatchIsRemainder(count, batch, count / batch);
    CarriedIs(s, 0, count, batch, room, 0);
  }

  lemma PeerGetsNothing(o: ScaleOptions, p: nat, f: Family)
    requires o.Parsed() && o.peers <= 64000 && CommunitiesFit(o) && p < o.peers && f in o.families
    requires o.batch > Capacity(f, 3, false) && RoutesPerFamily(o) > 0 && RoutesPerFamily(o) % o.batch == 0
    ensures At(Replay(map[], Scenario(o)), Key(PeerKey(p), f)) == {}
  {
    PeerTableIs(o, p, f, Replay(map[], Scenario(o)));
    NothingCarried(PeerSource(o, p, f), RoutesPerFamily(o), o.batch, Capacity(f, 3, false));
  }

  lemma LocRibGetsNothing(o: ScaleOptions, f: Family)
    requires o.Parsed() && o.peers <= 64000 && CommunitiesFit(o) && f in o.families
    requires o.batch > Capacity(f, 2, false) && o.locRibRoutes > 0 && o.locRibRoutes % o.batch == 0
    ensures At(Replay(map[], Scenario(o)), Key(LocRib, f)) == {}
  {
    LocRibTableIs(o, f, Replay(map[], Scenario(o)));
    NothingCarried(LocRibSource(o, f), o.locRibRoutes, o.batch, Capacity(f, 2, false));
  }

  /** The default options with one family, and batches as large as a peer's table. */
  function LargeBatch(): (o: ScaleOptions)
    ensures o.Parsed()
  {
    ScaleOptions(100, 20000, 100000, [Ipv4Unicast], 20000, false, 0)
  }

  lemma LargeBatchPlan(p: nat)
    requires p < 100
    ensures PeerInRange(LargeBatch(), p) && |Planned(LargeBatch(), p, Ipv4Unicast)| == 20000
    ensures LocRibInRange(LargeBatch()) && |PlannedLocRib(LargeBatch(), Ipv4Unicast)| == 100000
  {
    SpanSize(PeerSource(LargeBatch(), p, Ipv4Unicast), 0, 20000);
    SpanSize(LocRibSource(LargeBatch(), Ipv4Unicast), 0, 100000);
  }

  /** These options are accepted and every prefix is in range, but no announcement can be decoded: every table stays
      empty, where each peer's should hold 20000 routes and the Loc-RIB's 100000. */
  lemma LargeBatchIsLost(p: nat)
    requires p < 100
    ensures var o, t := LargeBatch(), Replay(map[], Scenario(LargeBatch()));
            && PeerInRange(o, p) && LocRibInRange(o)
            && At(t, Key(PeerKey(p), Ipv4Unicast)) == {} && |Planned(o, p, Ipv4Unicast)| == 20000
            && At(t, Key(LocRib, Ipv4Unicast)) == {} && |PlannedLocRib(o, Ipv4Unicast)| == 100000
  {
    LargeBatchPlan(p);
    Capacities();
    PeerGetsNothing(LargeBatch(), p, Ipv4Unicast);
    LocRibGetsNothing(LargeBatch(), Ipv4Unicast);
  }

  // ------------------------------------------------------------- statistics

  lemma {:induction false} BatchesCarryRoutes(peer: Peer, s: Source, start: nat, total: nat, batch: nat, withdraw: bool)
    requires batch >= 1
    ensures forall m :: m in Batches(peer, s, start, total, batch, withdraw) ==> !m.Statistics?
    decreases if start < total then total - start else 0
  {
    if start < total {
      BatchesCarryRoutes(peer, s, start + batch, total, batch, withdraw);
    }
  }

  lemma FamilyCarriesRoutes(peer: Peer, s: Source, count: nat, withdrawn: nat, batch: nat)
    requires batch >= 1
    ensures forall m :: m in FamilyStream(peer, s, count, withdrawn, batch) ==> !m.Statistics?
  {
    BatchesCarryRoutes(peer, s, 0, count, batch, false);
    BatchesCarryRoutes(peer, s, 0, withdrawn, batch, true);
  }

  lemma {:induction false} PeerFamiliesCarryRoutes(o: ScaleOptions, p: nat, families: seq<Family>)
    requires o.Parsed()
    ensures forall m :: m in PeerFamilies(o, p, families) ==> !m.Statistics?
  {
    if families != [] {
      FamilyCarriesRoutes(PeerKey(p), PeerSource(o, p, families[0]), RoutesPerFamily(o), WithdrawCount(o), o.batch);
      PeerFamiliesCarryRoutes(o, p, families[1..]);
    }
  }

  lemma {:induction false} LocRibFamiliesCarryRoutes(o: ScaleOptions, families: seq<Family>)
    requires o.Parsed()
    ensures forall m :: m in LocRibFamilies(o, families) ==> !m.Statistics?
  {
    if families != [] {
      FamilyCarriesRoutes(LocRib, LocRibSource(o, families[0]), o.locRibRoutes, 0, o.batch);
      LocRibFamiliesCarryRoutes(o, families[1..]);
    }
  }

  ghost predicate NoRepeats(families: seq<Family>) {
    forall i, j :: 0 <= i < j < |families| ==> families[i] != families[j]
  }

  function One(present: bool): nat {
    if present then 1 else 0
  }

  /** How many different families the list names. */
  function Kinds(families: seq<Family>): nat {
    One(Ipv4Unicast in families) + One(Ipv6Unicast in families) + One(Vpnv4 in families) + One(Vpnv6 in families)
  }

  lemma {:induction false} KindsCount(families: seq<Family>)
    ensures Kinds(families) <= |families| && (Kinds(families) == |families| <==> NoRepeats(families))
    ensures families != [] ==> Kinds(families) > 0
  {
    if families != [] {
      var f, rest := families[0], families[1..];
      KindsCount(rest);
      assert forall g :: g in families <==> g == f || g in rest;
      RepeatsOrNot(families);
    }
  }

  lemma RepeatsOrNot(families: seq<Family>)
    requires families != []
    ensures NoRepeats(families) <==> families[0] !in families[1..] && NoRepeats(families[1..])
  {
    var rest := families[1..];
    assert forall i :: 0 <= i < |rest| ==> rest[i] == families[i + 1];
    if families[0] !in rest && NoRepeats(rest) {
      forall i, j | 0 <= i < j < |families| ensures families[i] != families[j] {
        assert families[j] == rest[j - 1] && (i > 0 ==> families[i] == rest[i - 1]);
      }
    }
  }

  /** The routes a peer has in all families together. */
  function TableSize(t: Table, peer: Peer): nat {
    |At(t, Key(peer, Ipv4Unicast))| + |At(t, Key(peer, Ipv6Unicast))| + |At(t, Key(peer, Vpnv4))|
        + |At(t, Key(peer, Vpnv6))|
  }

  /** With at most `n` routes in each family asked for, the total is `n` for each of them exactly when every table is
      full. */
  lemma TableSizeIs(t: Table, peer: Peer, families: seq<Family>, n: nat)
    requires forall f :: |At(t, Key(peer, f))| <= if f in families then n else 0
    ensures TableSize(t, peer) <= n * Kinds(families)
    ensures TableSize(t, peer) == n * Kinds(families) <==> forall f :: f in families ==> |At(t, Key(peer, f))| == n
  {
    var a, b, c, d := |At(t, Key(peer, Ipv4Unicast))|, |At(t, Key(peer, Ipv6Unicast))|, |At(t, Key(peer, Vpnv4))|,
                      |At(t, Key(peer, Vpnv6))|;
    var w, x, y, z := One(Ipv4Unicast in families), One(Ipv6Unicast in families), One(Vpnv4 in families),
                      One(Vpnv6 in families);
    FourParts(n, a, b, c, d, w, x, y, z);
    if a + b + c + d == n * (w + x + y + z) {
      forall f | f in families ensures |At(t, Key(peer, f))| == n {
        assert f == Ipv4Unicast || f == Ipv6Unicast || f == Vpnv4 || f == Vpnv6;
      }
    }
  }

  /** Four parts of at most `n` or nothing add up to all there can be exactly when each is full. */
  lemma FourParts(n: nat, a: nat, b: nat, c: nat, d: nat, w: nat, x: nat, y: nat, z: nat)
    requires w <= 1 && x <= 1 && y <= 1 && z <= 1
    requires a <= (if w == 1 then n else 0) && b <= (if x == 1 then n else 0)
    requires c <= (if y == 1 then n else 0) && d <= (if z == 1 then n else 0)
    ensures a + b + c + d <= n * (w + x + y + z)
    ensures a + b + c + d == n * (w + x + y + z) <==>
            (w == 1 ==> a == n) && (x == 1 ==> b == n) && (y == 1 ==> c == n) && (z == 1 ==> d == n)
  {
    assert n * (w + x + y + z) == n * w + n * x + n * y + n * z;
  }

  /** The reported total is the real one exactly when all kinds of tables are full, and no family repeats or there are
      no routes. */
  lemma TotalsMatchIff(n: nat, size: nat, kinds: nat, reported: nat)
    requires size <= n * kinds && kinds <= reported
    ensures n * reported == size <==> size == n * kinds && (n == 0 || kinds == reported)
  {
    assert n * reported == n * kinds + n * (reported - kinds);
    assert n > 0 && reported > kinds ==> n * (reported - kinds) > 0;
  }

  /** What a report of `n` routes per family says, against tables that hold at most `n` each. */
  lemma ReportIsRightIff(t: Table, m: Message, families: seq<Family>, n: nat, full: bool)
    requires m.Statistics? && m == Report(m.peer, n, |families|) && families != []
    requires forall f :: |At(t, Key(m.peer, f))| <= if f in families then n else 0
    requires full <==> forall f :: f in families ==> |At(t, Key(m.peer, f))| == n
    ensures |m.perFamily| == |families|
    ensures (forall i :: 0 <= i < |families| ==> m.perFamily[i] == |At(t, Key(m.peer, families[i]))|) <==> full
    ensures m.total == TableSize(t, m.peer) <==> full && (n == 0 || NoRepeats(families))
  {
    TableSizeIs(t, m.peer, families, n);
    KindsCount(families);
    TotalsMatchIff(n, TableSize(t, m.peer), Kinds(families), |families|);
    if forall i :: 0 <= i < |families| ==> m.perFamily[i] == |At(t, Key(m.peer, families[i]))| {
      forall f | f in families ensures |At(t, Key(m.peer, f))| == n {
        var i :| 0 <= i < |families| && families[i] == f;
        assert m.perFamily[i] == n;
      }
    }
  }

  /** Every batch of every family has room. */
  predicate BatchesFit(o: ScaleOptions, count: nat, hops: nat)
    requires hops <= 63
  {
    forall f | f in o.families :: Min(o.batch, count) <= Capacity(f, hops, false)
  }

  lemma OnlyReport(first: Message, middle: seq<Message>, last: Message, m: Message)
    requires (forall x :: x in middle ==> !x.Statistics?) && !first.Statistics?
    requires m in [first] + middle + [last] && m.Statistics?
    ensures m == last
  {
  }

  lemma PeerSizes(o: ScaleOptions, p: nat, t: Table)
    requires o.Parsed() && o.peers <= 64000 && CommunitiesFit(o) && p < o.peers && PeerInRange(o, p)
    requires t == Replay(map[], Scenario(o))
    ensures forall f :: |At(t, Key(PeerKey(p), f))| <= if f in o.families then RoutesPerFamily(o) else 0
    ensures WithdrawCount(o) == 0 && BatchesFit(o, RoutesPerFamily(o), 3)
            <==> forall f :: f in o.families ==> |At(t, Key(PeerKey(p), f))| == RoutesPerFamily(o)
  {
    var n, w := RoutesPerFamily(o), WithdrawCount(o);
    WithdrawAtMostAll(o);
    forall f
      ensures |At(t, Key(PeerKey(p), f))| <= if f in o.families then n else 0
      ensures f in o.families ==>
                (|At(t, Key(PeerKey(p), f))| == n <==> w == 0 && Min(o.batch, n) <= Capacity(f, 3, false))
    {
      PeerTableIs(o, p, f, t);
      if f in o.families {
        DeliveredSize(PeerSource(o, p, f), n, w, o.batch);
      }
    }
    assert o.families[0] in o.families;
  }

  /** The statistics report of every peer against the tables decoded from the stream: the per-family values are right
      exactly when nothing is withdrawn and every batch has room, the total exactly when in addition no family repeats
      or there are no routes. */
  lemma StatisticsMatchIff(o: ScaleOptions, p: nat, m: Message)
    requires o.Parsed() && o.peers <= 64000 && CommunitiesFit(o) && p < o.peers && PeerInRange(o, p)
    requires m in PeerStream(o, p) && m.Statistics?
    ensures var t, n := Replay(map[], Scenario(o)), RoutesPerFamily(o);
            var right := WithdrawCount(o) == 0 && BatchesFit(o, n, 3);
            && m.peer == PeerKey(p) && |m.perFamily| == |o.families|
            && ((forall i :: 0 <= i < |o.families| ==> m.perFamily[i] == |At(t, Key(m.peer, o.families[i]))|)
                <==> right)
            && (m.total == TableSize(t, m.peer) <==> right && (n == 0 || NoRepeats(o.families)))
  {
    var t, n := Replay(map[], Scenario(o)), RoutesPerFamily(o);
    PeerFamiliesCarryRoutes(o, p, o.families);
    OnlyReport(PeerUp(PeerKey(p)), PeerFamilies(o, p, o.families), Report(PeerKey(p), n, |o.families|), m);
    PeerSizes(o, p, t);
    ReportIsRightIff(t, m, o.families, n, WithdrawCount(o) == 0 && BatchesFit(o, n, 3));
  }

  lemma LocRibSizes(o: ScaleOptions, t: Table)
    requires o.Parsed() && o.peers <= 64000 && CommunitiesFit(o) && LocRibInRange(o)
    requires t == Replay(map[], Scenario(o))
    ensures forall f :: |At(t, Key(LocRib, f))| <= if f in o.families then o.locRibRoutes else 0
    ensures BatchesFit(o, o.locRibRoutes, 2)
            <==> forall f :: f in o.families ==> |At(t, Key(LocRib, f))| == o.locRibRoutes
  {
    var n := o.locRibRoutes;
    forall f
      ensures |At(t, Key(LocRib, f))| <= if f in o.families then n else 0
      ensures f in o.families ==> (|At(t, Key(LocRib, f))| == n <==> Min(o.batch, n) <= Capacity(f, 2, false))
    {
      LocRibTableIs(o, f, t);
      if f in o.families {
        DeliveredSize(LocRibSource(o, f), n, 0, o.batch);
      }
    }
  }

  /** The report of the Loc-RIB, from which nothing is withdrawn: it is right per family exactly when every batch has
      room, and in total exactly when in addition no family repeats or there are no routes. */
  lemma LocRibStatisticsMatchIff(o: ScaleOptions, m: Message)
    requires o.Parsed() && o.peers <= 64000 && CommunitiesFit(o) && LocRibInRange(o)
    requires m in LocRibStream(o) && m.Statistics?
    ensures var t, n := Replay(map[], Scenario(o)), o.locRibRoutes;
            var right := BatchesFit(o, n, 2);
            && m.peer == LocRib && |m.perFamily| == |o.families|
            && ((forall i :: 0 <= i < |o.families| ==> m.perFamily[i] == |At(t, Key(LocRib, o.families[i]))|)
                <==> right)
            && (m.total == TableSize(t, LocRib) <==> right && (n == 0 || NoRepeats(o.families)))
  {
    var t, n := Replay(map[], Scenario(o)), o.locRibRoutes;
    LocRibFamiliesCarryRoutes(o, o.families);
    OnlyReport(PeerUp(LocRib), LocRibFamilies(o, o.families), Report(LocRib, n, |o.families|), m);
    LocRibSizes(o, t);
    ReportIsRightIff(t, m, o.families, n, BatchesFit(o, n, 2));
  }
}
