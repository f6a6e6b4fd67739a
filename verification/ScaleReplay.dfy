/** A receiver that decodes the load generator's stream into routing tables, and what of it gets through. */
module ScaleReplay {
  import opened Options
  import opened Bytes
  import opened BgpUpdate
  import opened ScaleUpdates
  import opened ScaleStream

  // ----------------------------------------------------------------- replay

  datatype Key = Key(peer: Peer, family: Family)
  type Table = map<Key, set<Route>>

  function At(t: Table, k: Key): set<Route> {
    if k in t then t[k] else {}
  }

  function ToSet(routes: seq<Route>): set<Route> {
    set r | r in routes
  }

  function ApplyMove(t: Table, peer: Peer, m: Move): Table {
    var k := Key(peer, m.family);
    t[k := if m.withdraw then At(t, k) - ToSet(m.routes) else At(t, k) + ToSet(m.routes)]
  }

  function ApplyMoves(t: Table, peer: Peer, moves: seq<Move>): Table
    decreases |moves|
  {
    if moves == [] then t else ApplyMoves(ApplyMove(t, peer, moves[0]), peer, moves[1..])
  }

  /** The octets of a route monitoring message are decoded; an UPDATE that cannot be decoded changes nothing. */
  function Apply(t: Table, m: Message): Table {
    if !m.RouteMonitoring? then t
    else
      var moves := ReadUpdate(UpdateOctets(m.content));
      if moves.None? then t else ApplyMoves(t, m.peer, moves.value)
  }

  function Replay(t: Table, messages: seq<Message>): Table
    decreases |messages|
  {
    if messages == [] then t else Replay(Apply(t, messages[0]), messages[1..])
  }

  lemma {:induction false} ReplayAppend(t: Table, a: seq<Message>, b: seq<Message>)
    ensures Replay(t, a + b) == Replay(Replay(t, a), b)
    decreases |a|
  {
    if a == [] {
      assert a + b == b;
    } else {
      assert (a + b)[1..] == a[1..] + b;
      ReplayAppend(Apply(t, a[0]), a[1..], b);
    }
  }

  /** The routes of the indexes from `low` up to `high`. */
  ghost function Span(s: Source, low: nat, high: nat): set<Route> {
    set i: nat | low <= i < high :: RouteAt(s, i)
  }

  lemma RoutesAreSpan(s: Source, start: nat, count: nat)
    ensures ToSet(RoutesOf(s, Prefixes(s, start, count))) == Span(s, start, start + count)
  {
    var routes := RoutesOf(s, Prefixes(s, start, count));
    assert forall i :: 0 <= i < count ==> routes[i] == RouteAt(s, start + i);
    forall r | r in Span(s, start, start + count) ensures r in routes {
      var i: nat :| start <= i < start + count && r == RouteAt(s, i);
      assert routes[i - start] == r;
    }
  }

  lemma SpanSplit(s: Source, low: nat, middle: nat, high: nat)
    requires low <= middle <= high
    ensures Span(s, low, high) == Span(s, low, middle) + Span(s, middle, high)
  {
  }

  /** Every key but one is as before. */
  ghost predicate ChangesOnly(t: Table, u: Table, k: Key) {
    forall other :: other != k ==> At(u, other) == At(t, other)
  }

  ghost function Moved(table: set<Route>, routes: set<Route>, withdraw: bool): set<Route> {
    if withdraw then table - routes else table + routes
  }

  lemma MovedTwice(table: set<Route>, a: set<Route>, b: set<Route>, withdraw: bool)
    ensures Moved(Moved(table, a, withdraw), b, withdraw) == Moved(table, a + b, withdraw)
  {
  }

  /** `u` is `t` with the routes added to, or taken from, one of its tables. */
  ghost predicate Moves(t: Table, u: Table, k: Key, routes: set<Route>, withdraw: bool) {
    At(u, k) == Moved(At(t, k), routes, withdraw) && ChangesOnly(t, u, k)
  }

  lemma MovesTwice(t: Table, u: Table, v: Table, k: Key, a: set<Route>, b: set<Route>, withdraw: bool)
    requires Moves(t, u, k, a, withdraw) && Moves(u, v, k, b, withdraw)
    ensures Moves(t, v, k, a + b, withdraw)
  {
    MovedTwice(At(t, k), a, b, withdraw);
  }

  /** The path attribute has one octet of length. */
  predicate ShortPath(s: Source) {
    |s.shared.asns| <= 63
  }

  /** The UPDATEs for `count` routes can be built. */
  predicate Sendable(s: Source, count: nat) {
    ShortPath(s) && (count > 0 ==> CommunityOk(s.shared.community))
  }

  /** How many routes of the table one UPDATE can carry. */
  function Room(s: Source, withdraw: bool): nat
    requires ShortPath(s)
  {
    Capacity(s.family, |s.shared.asns|, withdraw)
  }

  /** Replaying the messages adds the routes to, or takes them from, one table, whatever was there before. */
  ghost predicate Carries(ms: seq<Message>, k: Key, routes: set<Route>, withdraw: bool) {
    forall t :: Moves(t, Replay(t, ms), k, routes, withdraw)
  }

  lemma CarriesOn(ms: seq<Message>, k: Key, x: set<Route>, y: set<Route>, withdraw: bool)
    requires ms != [] && Carries([ms[0]], k, x, withdraw) && Carries(ms[1..], k, y, withdraw)
    ensures Carries(ms, k, x + y, withdraw)
  {
    forall t ensures Moves(t, Replay(t, ms), k, x + y, withdraw) {
      var u := Replay(t, [ms[0]]);
      ReplayOne(t, ms[0]);
      assert Moves(t, u, k, x, withdraw) && Moves(u, Replay(u, ms[1..]), k, y, withdraw);
      MovesTwice(t, u, Replay(u, ms[1..]), k, x, y, withdraw);
    }
  }

  lemma CarriesNothing(k: Key, withdraw: bool)
    ensures Carries([], k, {}, withdraw)
  {
  }

  /** The UPDATE reads as one move, or cannot be read. */
  ghost predicate ReadsAsMove(update: seq<byte>, f: Family, routes: set<Route>, withdraw: bool) {
    match ReadUpdate(update)
    case None => routes == {}
    case Some(moves) =>
      |moves| == 1 && moves[0].family == f && moves[0].withdraw == withdraw && ToSet(moves[0].routes) == routes
  }

  lemma CarriesAsRead(peer: Peer, content: Content, n: int, f: Family, routes: set<Route>, withdraw: bool)
    requires ReadsAsMove(UpdateOctets(content), f, routes, withdraw)
    ensures Carries([RouteMonitoring(peer, content, n)], Key(peer, f), routes, withdraw)
  {
    var m := RouteMonitoring(peer, content, n);
    forall t ensures Moves(t, Replay(t, [m]), Key(peer, f), routes, withdraw) {
      ReplayOne(t, m);
      AppliesAsRead(t, m, f, routes, withdraw);
    }
  }

  lemma AppliesAsRead(t: Table, m: Message, f: Family, routes: set<Route>, withdraw: bool)
    requires m.RouteMonitoring? && ReadsAsMove(UpdateOctets(m.content), f, routes, withdraw)
    ensures Moves(t, Apply(t, m), Key(m.peer, f), routes, withdraw)
  {
    var moves := ReadUpdate(UpdateOctets(m.content));
    if moves.Some? {
      OneMove(t, m.peer, moves.value);
    }
  }

  lemma OneMove(t: Table, peer: Peer, moves: seq<Move>)
    requires |moves| == 1
    ensures ApplyMoves(t, peer, moves) == ApplyMove(t, peer, moves[0])
  {
    assert moves[1..] == [];
  }

  lemma ReplayOne(t: Table, m: Message)
    ensures Replay(t, [m]) == Apply(t, m)
  {
    assert [m][1..] == [];
  }

  /** What a batch of `count` routes moves: all of them, or none if the UPDATE has no room for them. */
  ghost function Part(s: Source, start: nat, count: nat, room: nat): set<Route> {
    if count <= room then Span(s, start, start + count) else {}
  }

  lemma BatchReads(peer: Peer, s: Source, prefixes: seq<seq<byte>>, withdraw: bool)
    requires ShortPath(s) && (!withdraw ==> CommunityOk(s.shared.community))
    requires Sized(s.family, prefixes) && prefixes != []
    ensures ReadUpdate(UpdateOctets(BatchMessage(peer, s, prefixes, withdraw).content))
            == if |prefixes| <= Room(s, withdraw) then Some([Move(s.family, withdraw, RoutesOf(s, prefixes))]) else None
  {
    if withdraw {
      WithdrawalReadsIff(s, prefixes, |s.shared.asns|);
    } else {
      AnnouncementReadsIff(s, prefixes);
    }
  }

  lemma BatchCarries(peer: Peer, s: Source, start: nat, count: nat, withdraw: bool)
    requires ShortPath(s) && (!withdraw ==> CommunityOk(s.shared.community)) && count > 0
    ensures Carries([BatchMessage(peer, s, Prefixes(s, start, count), withdraw)], Key(peer, s.family),
                    Part(s, start, count, Room(s, withdraw)), withdraw)
  {
    var prefixes := Prefixes(s, start, count);
    var m := BatchMessage(peer, s, prefixes, withdraw);
    BatchReads(peer, s, prefixes, withdraw);
    RoutesAreSpan(s, start, count);
    CarriesAsRead(peer, m.content, m.routes, s.family, Part(s, start, count, Room(s, withdraw)), withdraw);
  }

  /** What the batches from `start` up to `total` move together. */
  ghost function Carried(s: Source, start: nat, total: nat, batch: nat, room: nat): set<Route>
    requires batch >= 1
    decreases if start < total then total - start else 0
  {
    if start >= total then {}
    else Part(s, start, Min(batch, total - start), room) + Carried(s, start + batch, total, batch, room)
  }

  /** UPDATEs of the table can be built, and carry up to `room` routes. */
  predicate Carrying(s: Source, withdraw: bool, room: nat) {
    ShortPath(s) && (!withdraw ==> CommunityOk(s.shared.community)) && room == Room(s, withdraw)
  }

  /** The messages carry the batches of the table from `start` on, one by one. */
  ghost predicate CarriesInTurn(ms: seq<Message>, k: Key, s: Source, start: nat, total: nat, batch: nat, room: nat,
                                withdraw: bool)
    requires batch >= 1
    decreases |ms|
  {
    if start >= total then ms == []
    else
      && ms != [] && Carries([ms[0]], k, Part(s, start, Min(batch, total - start), room), withdraw)
      && CarriesInTurn(ms[1..], k, s, start + batch, total, batch, room, withdraw)
  }

  lemma {:induction false} InTurnTogether(ms: seq<Message>, k: Key, s: Source, start: nat, total: nat, batch: nat,
                                          room: nat, withdraw: bool)
    requires batch >= 1 && CarriesInTurn(ms, k, s, start, total, batch, room, withdraw)
    ensures Carries(ms, k, Carried(s, start, total, batch, room), withdraw)
    decreases |ms|
  {
    if start < total {
      InTurnTogether(ms[1..], k, s, start + batch, total, batch, room, withdraw);
      CarriesOn(ms, k, Part(s, start, Min(batch, total - start), room),
                Carried(s, start + batch, total, batch, room), withdraw);
    } else {
      CarriesNothing(k, withdraw);
    }
  }

  lemma {:induction false} BatchesInTurn(peer: Peer, s: Source, start: nat, total: nat, batch: nat, withdraw: bool,
                                         room: nat, ms: seq<Message>)
    requires (start < total ==> Carrying(s, withdraw, room)) && batch >= 1
    requires ms == Batches(peer, s, start, total, batch, withdraw)
    ensures CarriesInTurn(ms, Key(peer, s.family), s, start, total, batch, room, withdraw)
    decreases if start < total then total - start else 0
  {
    if start < total {
      FirstCarries(peer, s, start, total, batch, withdraw, room);
      BatchesInTurn(peer, s, start + batch, total, batch, withdraw, room, ms[1..]);
    }
  }

  lemma FirstCarries(peer: Peer, s: Source, start: nat, total: nat, batch: nat, withdraw: bool, room: nat)
    requires batch >= 1 && start < total && Carrying(s, withdraw, room)
    ensures var batches := Batches(peer, s, start, total, batch, withdraw);
            && batches != [] && batches[1..] == Batches(peer, s, start + batch, total, batch, withdraw)
            && Carries([batches[0]], Key(peer, s.family), Part(s, start, Min(batch, total - start), room), withdraw)
  {
    BatchCarries(peer, s, start, Min(batch, total - start), withdraw);
  }

  /** Decoding the batches moves exactly what has room in them. */
  lemma BatchesReplay(peer: Peer, s: Source, total: nat, batch: nat, withdraw: bool, ms: seq<Message>,
                      routes: set<Route>)
    requires ShortPath(s) && (!withdraw ==> Sendable(s, total)) && batch >= 1
    requires ms == Batches(peer, s, 0, total, batch, withdraw)
    requires routes == Carried(s, 0, total, batch, Room(s, withdraw))
    ensures Carries(ms, Key(peer, s.family), routes, withdraw)
  {
    BatchesInTurn(peer, s, 0, total, batch, withdraw, Room(s, withdraw), ms);
    InTurnTogether(ms, Key(peer, s.family), s, 0, total, batch, Room(s, withdraw), withdraw);
  }

  // --------------------------------------------------------- what gets through

  lemma Apart(m: nat, a: int, b: int)
    ensures a > b ==> m * a >= m * b + m
  {
    assert a > b ==> m * (a - b - 1) >= 0;
    assert m * (a - b - 1) == m * a - m * b - m;
  }

  lemma DivIs(x: nat, m: nat, q: int, r: nat)
    requires x == m * q + r && r < m
    ensures x / m == q && x % m == r
  {
    var p := x / m;
    assert x == m * p + x % m;
    Apart(m, p, q);
    Apart(m, q, p);
  }

  /** The routes of the last batch if it is not a whole one. */
  function LastBatch(left: nat, batch: nat): (r: nat)
    requires batch >= 1
    ensures r < batch && r <= left && (left >= batch ==> left - r >= batch)
  {
    if left < batch then left else LastBatch(left - batch, batch)
  }

  lemma {:induction false} LastBatchIsRemainder(left: nat, batch: nat, q: nat)
    requires batch >= 1 && q == left / batch
    ensures LastBatch(left, batch) == left % batch
  {
    assert left == batch * q + left % batch;
    if left < batch {
      DivIs(left, batch, 0, left);
    } else {
      assert batch * (q - 1) == batch * q - batch;
      DivIs(left - batch, batch, q - 1, left % batch);
      LastBatchIsRemainder(left - batch, batch, q - 1);
    }
  }

  /** With room for a whole batch everything is carried, otherwise only a last batch of `r` routes can be. */
  ghost function Through(s: Source, start: nat, total: nat, batch: nat, room: nat, r: nat): set<Route>
    requires start <= total && r <= total
  {
    if Min(batch, total - start) <= room then Span(s, start, total)
    else if r <= room then Span(s, total - r, total)
    else {}
  }

  lemma {:induction false} CarriedIs(s: Source, start: nat, total: nat, batch: nat, room: nat, r: nat)
    requires batch >= 1 && start <= total && r == LastBatch(total - start, batch)
    ensures Carried(s, start, total, batch, room) == Through(s, start, total, batch, room, r)
    decreases total - start
  {
    var left := total - start;
    if left > batch {
      CarriedIs(s, start + batch, total, batch, room, r);
      ThroughStep(s, start, total, batch, room, r);
    } else if left == batch {
      assert LastBatch(0, batch) == 0;
    }
  }

  lemma ThroughStep(s: Source, start: nat, total: nat, batch: nat, room: nat, r: nat)
    requires start + batch < total && r <= total - start - batch
    requires total - start - batch < batch ==> r == total - start - batch
    ensures Part(s, start, batch, room) + Through(s, start + batch, total, batch, room, r)
            == Through(s, start, total, batch, room, r)
  {
    SpanSplit(s, start, start + batch, total);
  }

  /** What is left of a table after announcing `count` routes and withdrawing the first `withdrawn`. */
  ghost function Delivered(s: Source, count: nat, withdrawn: nat, batch: nat): set<Route>
    requires ShortPath(s) && batch >= 1
  {
    Carried(s, 0, count, batch, Room(s, false)) - Carried(s, 0, withdrawn, batch, Room(s, true))
  }

  /** The planned routes get through: every batch has room, or the short last batch has and the others are withdrawn
      again, or everything is. */
  predicate Survives(count: nat, withdrawn: nat, batch: nat, room: nat)
    requires batch >= 1
  {
    || Min(batch, count) <= room
    || withdrawn == count
    || (count % batch <= room && count - count % batch <= withdrawn)
  }

  lemma MoreRoomToWithdraw(s: Source)
    requires ShortPath(s)
    ensures Room(s, false) <= Room(s, true)
  {
    var f, hops := s.family, |s.shared.asns|;
    FitsIff(f, hops, false, Room(s, false));
    FitsIff(f, hops, true, Room(s, false));
  }

  ghost predicate AllInRange(s: Source, count: nat) {
    forall i: nat :: i < count ==> InRange(s, i)
  }

  lemma DistinctRoutes(s: Source, i: nat, j: nat)
    requires InRange(s, i) && InRange(s, j) && i != j
    ensures RouteAt(s, i) != RouteAt(s, j)
  {
    if Prefix(s, i) == Prefix(s, j) {
      PrefixInjective(s, i, s, j);
    }
  }

  lemma InSpan(s: Source, i: nat, low: nat, high: nat, count: nat)
    requires AllInRange(s, count) && i < count && high <= count
    ensures RouteAt(s, i) in Span(s, low, high) <==> low <= i < high
  {
    if RouteAt(s, i) in Span(s, low, high) {
      var j: nat :| low <= j < high && RouteAt(s, j) == RouteAt(s, i);
      if i != j {
        DistinctRoutes(s, i, j);
      }
    }
  }

  /** Taking away a span that starts at or before `low` and ends at `middle`. */
  lemma SpanMinus(s: Source, first: nat, low: nat, middle: nat, high: nat)
    requires first <= low <= middle <= high && AllInRange(s, high)
    ensures Span(s, low, high) - Span(s, first, middle) == Span(s, middle, high)
  {
    SpanSplit(s, low, middle, high);
    forall i: nat | middle <= i < high ensures RouteAt(s, i) !in Span(s, first, middle) {
      InSpan(s, i, first, middle, high);
    }
    SpanWithin(s, first, low, middle);
  }

  lemma SpanWithin(s: Source, first: nat, low: nat, middle: nat)
    requires first <= low <= middle
    ensures Span(s, low, middle) <= Span(s, first, middle)
  {
    SpanSplit(s, first, low, middle);
  }

  lemma SpanEmptyIff(s: Source, low: nat, high: nat)
    requires low <= high
    ensures Span(s, low, high) == {} <==> low == high
  {
    if low < high {
      assert RouteAt(s, low) in Span(s, low, high);
    }
  }

  /** The comparison with the plan, for what gets through the announcements (`r` routes in the last batch) and the
      withdrawals (`v` in theirs). */
  lemma ThroughIsPlannedIff(s: Source, count: nat, withdrawn: nat, batch: nat, room: nat, more: nat, r: nat, v: nat)
    requires withdrawn <= count && AllInRange(s, count) && room <= more && r <= count && v <= withdrawn
    requires count < batch ==> r == count
    requires count - r <= withdrawn ==> withdrawn - v == count - r
    ensures Through(s, 0, count, batch, room, r) - Through(s, 0, withdrawn, batch, more, v)
            == Span(s, withdrawn, count)
            <==> Min(batch, count) <= room || withdrawn == count || (r <= room && count - r <= withdrawn)
  {
    SpanEmptyIff(s, withdrawn, count);
    if Min(batch, count) <= room {
      SpanMinus(s, 0, 0, withdrawn, count);
    } else if r <= room && count - r <= withdrawn {
      SpanMinus(s, 0, count - r, withdrawn, count);
      SpanMinus(s, count - r, count - r, withdrawn, count);
    } else if r <= room {
      InSpan(s, withdrawn, withdrawn, count, count);
      InSpan(s, withdrawn, count - r, count, count);
    }
  }

  /** With everything but the last batch withdrawn, the withdrawals are cut at the same place. */
  lemma {:induction false} SameCut(count: nat, withdrawn: nat, batch: nat)
    requires batch >= 1 && count - LastBatch(count, batch) <= withdrawn <= count
    ensures withdrawn - LastBatch(withdrawn, batch) == count - LastBatch(count, batch)
  {
    if count >= batch {
      SameCut(count - batch, withdrawn - batch, batch);
    }
  }

  lemma CarriedIsPlannedIff(s: Source, count: nat, withdrawn: nat, batch: nat, room: nat, more: nat)
    requires batch >= 1 && withdrawn <= count && AllInRange(s, count) && room <= more
    ensures Carried(s, 0, count, batch, room) - Carried(s, 0, withdrawn, batch, more) == Span(s, withdrawn, count)
            <==> Survives(count, withdrawn, batch, room)
  {
    var r, v := LastBatch(count, batch), LastBatch(withdrawn, batch);
    CarriedIs(s, 0, count, batch, room, r);
    CarriedIs(s, 0, withdrawn, batch, more, v);
    if count - r <= withdrawn {
      SameCut(count, withdrawn, batch);
    }
    ThroughIsPlannedIff(s, count, withdrawn, batch, room, more, r, v);
    SurvivesIs(count, withdrawn, batch, room, r);
  }

  lemma SurvivesIs(count: nat, withdrawn: nat, batch: nat, room: nat, r: nat)
    requires batch >= 1 && r == LastBatch(count, batch)
    ensures Survives(count, withdrawn, batch, room)
            <==> Min(batch, count) <= room || withdrawn == count || (r <= room && count - r <= withdrawn)
  {
    LastBatchIsRemainder(count, batch, count / batch);
  }

  /** The table ends as planned exactly when the planned routes get through. */
  lemma DeliveredIsPlannedIff(s: Source, count: nat, withdrawn: nat, batch: nat)
    requires ShortPath(s) && batch >= 1 && withdrawn <= count && AllInRange(s, count)
    ensures Delivered(s, count, withdrawn, batch) == Span(s, withdrawn, count)
            <==> Survives(count, withdrawn, batch, Room(s, false))
  {
    MoreRoomToWithdraw(s);
    CarriedIsPlannedIff(s, count, withdrawn, batch, Room(s, false), Room(s, true));
  }

  lemma NotYetInSpan(s: Source, low: nat, high: nat)
    requires low <= high && AllInRange(s, high + 1)
    ensures RouteAt(s, high) !in Span(s, low, high)
  {
    InSpan(s, high, low, high, high + 1);
  }

  lemma {:induction false} SpanSize(s: Source, low: nat, high: nat)
    requires low <= high && AllInRange(s, high)
    ensures |Span(s, low, high)| == high - low
    decreases high - low
  {
    if low < high {
      SpanSize(s, low, high - 1);
      SpanSplit(s, low, high - 1, high);
      assert Span(s, high - 1, high) == {RouteAt(s, high - 1)};
      NotYetInSpan(s, low, high - 1);
    }
  }

  lemma SmallerSet<T>(a: set<T>, b: set<T>)
    requires a <= b
    ensures |a| <= |b| && (|a| == |b| <==> a == b)
  {
    var rest := b - a;
    assert b == a + rest && |b| == |a| + |rest|;
    assert rest == {} ==> a == b;
  }

  lemma ThroughWithin(s: Source, count: nat, batch: nat, room: nat, r: nat)
    requires r <= count
    ensures Through(s, 0, count, batch, room, r) <= Span(s, 0, count)
  {
    SpanWithin(s, 0, count - r, count);
  }

  lemma CarriedSize(s: Source, count: nat, withdrawn: nat, batch: nat, room: nat, more: nat)
    requires batch >= 1 && withdrawn <= count && AllInRange(s, count) && room <= more
    ensures var size := |Carried(s, 0, count, batch, room) - Carried(s, 0, withdrawn, batch, more)|;
            size <= count && (size == count <==> withdrawn == 0 && Min(batch, count) <= room)
  {
    var d := Carried(s, 0, count, batch, room) - Carried(s, 0, withdrawn, batch, more);
    CarriedIs(s, 0, count, batch, room, LastBatch(count, batch));
    ThroughWithin(s, count, batch, room, LastBatch(count, batch));
    SmallerSet(d, Span(s, 0, count));
    SpanSize(s, 0, count);
    if withdrawn == 0 {
      CarriedIsPlannedIff(s, count, 0, batch, room, more);
      SurvivesWhole(count, batch, room);
    } else {
      FirstIsMissing(s, count, withdrawn, batch, room, more);
    }
  }

  lemma FirstIsMissing(s: Source, count: nat, withdrawn: nat, batch: nat, room: nat, more: nat)
    requires batch >= 1 && 0 < withdrawn <= count && AllInRange(s, count) && room <= more
    ensures RouteAt(s, 0) in Span(s, 0, count)
    ensures RouteAt(s, 0) !in Carried(s, 0, count, batch, room) - Carried(s, 0, withdrawn, batch, more)
  {
    var r := LastBatch(count, batch);
    CarriedIs(s, 0, count, batch, room, r);
    CarriedIs(s, 0, withdrawn, batch, more, LastBatch(withdrawn, batch));
    InSpan(s, 0, count - r, count, count);
    assert RouteAt(s, 0) in Span(s, 0, withdrawn);
  }

  /** A table holds all the routes announced for it exactly when none is withdrawn and every batch has room. */
  lemma DeliveredSize(s: Source, count: nat, withdrawn: nat, batch: nat)
    requires ShortPath(s) && batch >= 1 && withdrawn <= count && AllInRange(s, count)
    ensures var size := |Delivered(s, count, withdrawn, batch)|;
            size <= count && (size == count <==> withdrawn == 0 && Min(batch, count) <= Room(s, false))
  {
    MoreRoomToWithdraw(s);
    CarriedSize(s, count, withdrawn, batch, Room(s, false), Room(s, true));
  }

  /** With nothing withdrawn, every batch needs room. */
  lemma SurvivesWhole(count: nat, batch: nat, room: nat)
    requires batch >= 1
    ensures Survives(count, 0, batch, room) <==> Min(batch, count) <= room
  {
    LastBatchIsRemainder(count, batch, count / batch);
  }

  // ------------------------------------------------------------------ tables

  /** Replaying the messages fills one table, which was empty or filled already, and leaves the others alone. */
  ghost predicate Fills(ms: seq<Message>, k: Key, routes: set<Route>) {
    forall t :: At(t, k) == {} || At(t, k) == routes ==>
      At(Replay(t, ms), k) == routes && ChangesOnly(t, Replay(t, ms), k)
  }

  /** The message reads as no move. */
  ghost predicate Quiet(m: Message) {
    m.RouteMonitoring? && ReadUpdate(UpdateOctets(m.content)) == Some([])
  }

  lemma AppliesNothing(t: Table, m: Message)
    requires Quiet(m)
    ensures Apply(t, m) == t
  {
  }

  lemma EndOfRibIsQuiet(peer: Peer, f: Family)
    ensures Quiet(EndOfRib(peer, f))
  {
    RibEndReads(f);
  }

  lemma ReplayAround(t: Table, a: seq<Message>, e: Message, w: seq<Message>)
    requires Quiet(e)
    ensures Replay(t, a + [e] + w) == Replay(Replay(t, a), w)
  {
    ReplayAppend(t, a + [e], w);
    ReplayAppend(t, a, [e]);
    ReplayOne(Replay(t, a), e);
    AppliesNothing(Replay(t, a), e);
  }

  lemma AnnouncedThenWithdrawn(a: seq<Message>, e: Message, w: seq<Message>, k: Key, x: set<Route>, y: set<Route>,
                               ms: seq<Message>)
    requires Quiet(e) && Carries(a, k, x, false) && Carries(w, k, y, true) && ms == a + [e] + w
    ensures Fills(ms, k, x - y)
  {
    forall t | At(t, k) == {} || At(t, k) == x - y
      ensures At(Replay(t, ms), k) == x - y && ChangesOnly(t, Replay(t, ms), k)
    {
      ReplayAround(t, a, e, w);
      assert Moves(t, Replay(t, a), k, x, false);
      assert Moves(Replay(t, a), Replay(Replay(t, a), w), k, y, true);
    }
  }

  /** One family of a peer: what is left in its table is what gets through. */
  lemma FamilyReplay(peer: Peer, s: Source, count: nat, withdrawn: nat, batch: nat, ms: seq<Message>,
                     routes: set<Route>)
    requires Sendable(s, count) && batch >= 1
    requires ms == FamilyStream(peer, s, count, withdrawn, batch) && routes == Delivered(s, count, withdrawn, batch)
    ensures Fills(ms, Key(peer, s.family), routes)
  {
    var announces, withdraws := Batches(peer, s, 0, count, batch, false), Batches(peer, s, 0, withdrawn, batch, true);
    var x, y := Carried(s, 0, count, batch, Room(s, false)), Carried(s, 0, withdrawn, batch, Room(s, true));
    BatchesReplay(peer, s, count, batch, false, announces, x);
    BatchesReplay(peer, s, withdrawn, batch, true, withdraws, y);
    EndOfRibIsQuiet(peer, s.family);
    AnnouncedThenWithdrawn(announces, EndOfRib(peer, s.family), withdraws, Key(peer, s.family), x, y, ms);
  }

  /** The tables of one peer, by family. */
  type Tables = Family -> set<Route>

  ghost predicate Ready(t: Table, peer: Peer, want: Tables) {
    forall f :: At(t, Key(peer, f)) == {} || At(t, Key(peer, f)) == want(f)
  }

  ghost predicate Filled(t: Table, u: Table, peer: Peer, families: seq<Family>, want: Tables) {
    && (forall f :: At(u, Key(peer, f)) == if f in families then want(f) else At(t, Key(peer, f)))
    && (forall k: Key :: k.peer != peer ==> At(u, k) == At(t, k))
  }

  /** The same for several families of one peer. */
  ghost predicate FillsAll(ms: seq<Message>, peer: Peer, families: seq<Family>, want: Tables) {
    forall t :: Ready(t, peer, want) ==> Filled(t, Replay(t, ms), peer, families, want)
  }

  lemma FilledOn(t: Table, u: Table, v: Table, peer: Peer, families: seq<Family>, want: Tables)
    requires families != [] && Ready(t, peer, want)
    requires At(u, Key(peer, families[0])) == want(families[0]) && ChangesOnly(t, u, Key(peer, families[0]))
    requires Ready(u, peer, want) ==> Filled(u, v, peer, families[1..], want)
    ensures Filled(t, v, peer, families, want)
  {
    assert forall g :: g in families <==> g == families[0] || g in families[1..];
    assert Ready(u, peer, want);
  }

  lemma FillsMore(first: seq<Message>, rest: seq<Message>, peer: Peer, families: seq<Family>, want: Tables)
    requires families != [] && Fills(first, Key(peer, families[0]), want(families[0]))
    requires FillsAll(rest, peer, families[1..], want)
    ensures FillsAll(first + rest, peer, families, want)
  {
    forall t | Ready(t, peer, want) ensures Filled(t, Replay(t, first + rest), peer, families, want) {
      ReplayAppend(t, first, rest);
      FilledOn(t, Replay(t, first), Replay(Replay(t, first), rest), peer, families, want);
    }
  }

  lemma FillsWithin(first: Message, middle: seq<Message>, last: Message, peer: Peer, families: seq<Family>,
                    want: Tables)
    requires FillsAll(middle, peer, families, want) && !first.RouteMonitoring? && !last.RouteMonitoring?
    ensures FillsAll([first] + middle + [last], peer, families, want)
  {
    forall t | Ready(t, peer, want)
      ensures Filled(t, Replay(t, [first] + middle + [last]), peer, families, want)
    {
      ReplayAppend(t, [first] + middle, [last]);
      ReplayAppend(t, [first], middle);
    }
  }
}
