/** Nothing that has to happen later is forgotten: an active subscription has its stop timer and its update timer
    armed, and an announcement reaches everybody it is meant for. */
module ServerTimers {
  import opened Options
  import opened YangPush
  import opened ReplicaProofs
  import opened NetconfServer
  import opened ServerProofs
  import opened ServerSteps
  import opened ServerRuns
  import opened ServerTheorems
  import opened ServerEffects
  import opened ServerEnds

  // ------------------------------------------------------------------- timers

  ghost predicate Wound(sub: Subscription) {
    && (sub.stopTime.Some? ==> sub.stopTimer.armed > 0)
    && (sub.kind.Push? && sub.kind.trigger.Periodic? ==> sub.updateTimer.armed > 0)
  }

  ghost predicate WoundAt(s: Server, sid: nat, id: nat) {
    Live(s, sid, id) && !Due(s.queues, sid, id) ==> Wound(Sub(s, sid, id))
  }

  lemma DeliverWinds(sub: Subscription, selection: Selection, now: int, initial: bool)
    ensures var o := Deliver(sub, selection, now, initial); o.sub.Some? ==> Wound(o.sub.value)
  {
    if !Expired(sub, now) && IsPeriodic(sub) {
      DeliverPeriodicShape(ScheduleStop(sub, now).sub.value, selection, now, initial);
    }
  }

  lemma TurnWinds(sub: Subscription, selection: Selection, now: int, turn: Turn)
    requires Wound(sub) || turn.Activation?
    ensures var o := TakeTurn(sub, selection, now, turn); o.sub.Some? ==> Wound(o.sub.value)
  {
    if turn.Activation? {
      DeliverWinds(if turn.initial then sub else ClearTimers(sub), selection, now, turn.initial);
    }
  }

  lemma ObserveWinds(sub: Subscription, selection: Selection, now: int)
    requires Wound(sub)
    ensures var o := Observe(sub, selection, now); o.sub.Some? ==> Wound(o.sub.value)
  {
  }

  lemma BecameWound(s: Server, e: Event, t: Server, sid: nat, id: nat)
    requires Live(t, sid, id) && Became(s, e, t, sid, id) && WoundAt(s, sid, id)
    ensures WoundAt(t, sid, id)
  {
    if !Awaits(s, e, t, sid, id) && !Due(t.queues, sid, id) {
      var sub := Sub(s, sid, id);
      if Ran(s, e, t, sid, id) {
        TurnWinds(sub, Selected(s, sub), s.now, TurnOf(s, e, sid, id).value);
      } else if Looked(s, t, sid, id) {
        ObserveWinds(sub, Selected(t, sub), s.now);
      }
    }
  }

  lemma StepWinds(s: Server, e: Event, t: Server, sid: nat, id: nat)
    requires Inv(s, {}) && t == Step(s, e) && WoundAt(s, sid, id)
    ensures WoundAt(t, sid, id)
  {
    if Live(t, sid, id) {
      StepBecomes(s, e, t, sid, id);
      BecameWound(s, e, t, sid, id);
    }
  }

  /** In every state of every run, a live subscription with no activation due has an armed stop timer if it has a stop
      time, and an armed update timer if it is periodic; so it ends in time, and its next update comes. */
  lemma {:induction false} TimersAreWound(states: seq<Server>, events: seq<Event>, k: nat, sid: nat, id: nat)
    requires IsRun(states, events) && k < |states|
    ensures WoundAt(states[k], sid, id)
    decreases k
  {
    if k > 0 {
      TimersAreWound(states, events, k - 1, sid, id);
      RunKeepsInv(states, events, k - 1);
      assert states[k - 1 + 1] == Step(states[k - 1], events[k - 1]);
      StepWinds(states[k - 1], events[k - 1], states[k], sid, id);
    }
  }

  // -------------------------------------------------------------- announcements

  /** Some open session has this event-stream subscription, and it is not over. */
  ghost predicate Listens(s: Server, id: nat) {
    exists sid: nat :: Live(s, sid, id) && Sub(s, sid, id).kind.EventStream? && !Over(s, Sub(s, sid, id))
  }

  lemma ListensIff(s: Server, id: nat)
    ensures Listens(s, id) <==> exists sid | sid in s.sessions :: Hears(s, sid, id)
  {
    if sid: nat :| Live(s, sid, id) && Sub(s, sid, id).kind.EventStream? && !Over(s, Sub(s, sid, id)) {
      assert Hears(s, sid, id);
    }
  }

  lemma FirstRecord(s: Server, audience: seq<nat>)
    requires audience != []
    ensures EventRecords(s, audience)
            == (if Listens(s, audience[0]) then [EventRecord(audience[0], s.now)] else [])
               + EventRecords(s, audience[1..])
  {
    ListensIff(s, audience[0]);
  }

  lemma CountFirst<T>(first: T, rest: seq<T>, x: T)
    ensures multiset([first] + rest)[x] == (if first == x then 1 else 0) + multiset(rest)[x]
  {
  }

  lemma CountNothing<T>(rest: seq<T>)
    ensures [] + rest == rest
  {
  }

  lemma CountRecords(first: nat, rest: seq<nat>, id: nat, now: int, hears: bool, listens: bool, later: seq<Message>)
    requires multiset(later)[EventRecord(id, now)] == if listens then multiset(rest)[id] else 0
    requires first == id ==> hears == listens
    ensures multiset((if hears then [EventRecord(first, now)] else []) + later)[EventRecord(id, now)]
            == if listens then multiset([first] + rest)[id] else 0
  {
    CountFirst(first, rest, id);
    CountFirst(EventRecord(first, now), later, EventRecord(id, now));
    CountNothing(later);
  }

  /** One event record for each mention of a listener, and none for anybody else. */
  lemma {:induction false} RecordsOfListeners(s: Server, audience: seq<nat>, id: nat)
    ensures multiset(EventRecords(s, audience))[EventRecord(id, s.now)]
            == if Listens(s, id) then multiset(audience)[id] else 0
    decreases |audience|
  {
    if audience != [] {
      var first, rest := audience[0], audience[1..];
      RecordsOfListeners(s, rest, id);
      FirstRecord(s, audience);
      assert audience == [first] + rest;
      CountRecords(first, rest, id, s.now, Listens(s, first), Listens(s, id), EventRecords(s, rest));
    }
  }

  /** The audience is served in order: what is sent to two audiences one after the other is what is sent to both. */
  lemma {:induction false} RecordsInOrder(s: Server, a: seq<nat>, b: seq<nat>)
    ensures EventRecords(s, a + b) == EventRecords(s, a) + EventRecords(s, b)
    decreases |a|
  {
    if a == [] {
      assert a + b == b;
    } else {
      assert (a + b)[0] == a[0] && (a + b)[1..] == a[1..] + b;
      RecordsInOrder(s, a[1..], b);
      FirstRecord(s, a);
      FirstRecord(s, a + b);
    }
  }

  /** The event tells the audience that something has changed, or just tells it. */
  ghost predicate Announces(s: Server, e: Event) {
    e.Reset? || e.Announce? || (IsWrite(e) && Granted(s, e))
  }

  lemma BroadcastTells(s: Server, u: Server, audience: seq<nat>)
    requires u.sessions == s.sessions && u.now == s.now && u.wire == s.wire
    ensures Broadcast(u, audience).wire == s.wire + EventRecords(s, audience)
    ensures Notify(u, audience).wire == s.wire + EventRecords(s, audience)
  {
    SameRecords(s, u, audience);
  }

  lemma {:induction false} SameRecords(s: Server, u: Server, audience: seq<nat>)
    requires u.sessions == s.sessions && u.now == s.now
    ensures EventRecords(u, audience) == EventRecords(s, audience)
    decreases |audience|
  {
    if audience != [] {
      SameRecords(s, u, audience[1..]);
      assert forall sid :: Hears(u, sid, audience[0]) <==> Hears(s, sid, audience[0]);
    }
  }

  lemma WriteTells(s: Server, e: Event)
    requires IsWrite(e) && Granted(s, e)
    ensures Step(s, e).wire == s.wire + EventRecords(s, e.audience)
  {
    var stores := WriteShape(s, e);
    WriteEffect(s, e, Running);
    BroadcastTells(s, Revised(s.(stores := stores)), e.audience);
  }

  lemma AnnouncedWire(s: Server, e: Event)
    requires Announces(s, e)
    ensures Step(s, e).wire == s.wire + EventRecords(s, e.audience)
  {
    if IsWrite(e) {
      WriteTells(s, e);
    } else if e.Reset? {
      BroadcastTells(s, s.(stores := InitialServer(0).stores, locks := InitialServer(0).locks, revision := 1),
                     e.audience);
    } else {
      BroadcastTells(s, s, e.audience);
    }
  }

  /** An accepted write, a reset and an announcement put one record on the wire for every mention, in the audience,
      of an event-stream subscription that lives and is not over, and nothing else. */
  lemma AnnouncementsReachListeners(s: Server, e: Event, id: nat)
    requires Announces(s, e)
    ensures s.wire <= Step(s, e).wire
    ensures var added := Step(s, e).wire[|s.wire|..];
            && multiset(added)[EventRecord(id, s.now)] == (if Listens(s, id) then multiset(e.audience)[id] else 0)
            && forall m :: m in added ==> m == EventRecord(m.id, s.now)
  {
    AnnouncedWire(s, e);
    RecordsOfListeners(s, e.audience, id);
    EventRecordsAreEvents(s, e.audience);
    AddedIsSuffix(s.wire, EventRecords(s, e.audience));
  }

  // ------------------------------------------------------------------- sessions

  /** A session gets its RFC 5277 subscription exactly when it has no subscription at all. */
  lemma LegacyIff(s: Server, sid: nat, stop: Option<int>)
    ensures var t := Step(s, CreateLegacy(sid, stop));
            if sid in s.sessions && s.sessions[sid].legacy.None? && s.sessions[sid].subs == map[]
            then sid in t.sessions && t.sessions[sid].legacy == Some(stop) && t.sessions[sid].subs == map[]
            else t == s
    ensures var t := Step(s, CompleteLegacy(sid));
            if sid in s.sessions
            then sid in t.sessions && t.sessions[sid].legacy == None && t.sessions[sid].subs == s.sessions[sid].subs
            else t == s
  {
  }

  /** A new session has an id never used before, starting at 1001, and nothing of its own yet. */
  lemma OpensFreshSession(states: seq<Server>, events: seq<Event>, k: nat)
    requires IsRun(states, events) && k < |events| && events[k] == Event.Open
    ensures var sid := states[k].nextSession;
            && sid >= 1001 && sid !in states[k].sessions && sid in states[k + 1].sessions
            && states[k + 1].sessions[sid] == Session(None, map[]) && states[k + 1].nextSession == sid + 1
  {
    RunKeepsInv(states, events, k);
    NumbersGrow(states, events, k);
  }

  lemma {:induction false} NumbersGrow(states: seq<Server>, events: seq<Event>, k: nat)
    requires IsRun(states, events) && k < |states|
    ensures states[k].nextSession >= 1001 && states[k].nextSub >= 2_147_483_648
    decreases k
  {
    if k > 0 {
      NumbersGrow(states, events, k - 1);
      assert states[k - 1 + 1] == Step(states[k - 1], events[k - 1]);
      OnlyEstablishCreates(states[k - 1], events[k - 1], 0, 0);
      SessionNumbersGrow(states[k - 1], events[k - 1]);
    }
  }

  lemma SessionNumbersGrow(s: Server, e: Event)
    ensures Step(s, e).nextSession == if e.Open? then s.nextSession + 1 else s.nextSession
  {
  }
}
