/** What one step of the server does to one subscription, and that on-change subscriptions stay current. */
module ServerSteps {
  import opened Options
  import opened EditConfig
  import opened YangPush
  import opened ReplicaProofs
  import opened NetconfServer
  import opened ServerProofs

  // --------------------------------------------------- one step, one subscription

  /** Nothing but event records is sent for `id`. */
  ghost predicate Silent(s: Server, t: Server, id: nat) {
    s.wire <= t.wire && forall m :: m in t.wire[|s.wire|..] ==> m.id != id || m.EventRecord?
  }

  ghost predicate DueKept(s: Server, t: Server, sid: nat, id: nat) {
    Due(s.queues, sid, id) ==> Due(t.queues, sid, id)
  }

  /** What the event loop can run for one subscription. */
  datatype Turn = ChangeFires | UpdateFires | StopFires | Activation(initial: bool) | Resynchronisation

  function TakeTurn(sub: Subscription, selection: Selection, now: int, turn: Turn): Outcome {
    match turn
    case ChangeFires => FireChange(sub, selection, now)
    case UpdateFires => FireUpdate(sub, selection, now)
    case StopFires => FireStop(sub, now)
    case Activation(initial) =>
      if initial then Deliver(sub, selection, now, true) else DeliverModified(sub, selection, now)
    case Resynchronisation => SendUpdate(sub, selection, now)
  }

  /** The timer or write callback of this subscription that the event runs, if any. */
  ghost function TurnOf(s: Server, e: Event, sid: nat, id: nat): Option<Turn>
    requires Live(s, sid, id)
  {
    var sub := Sub(s, sid, id);
    match e
    case ChangeTimer(a, b) => if a == sid && b == id && sub.changeTimer.armed > 0 then Some(ChangeFires) else None
    case UpdateTimer(a, b) => if a == sid && b == id && sub.updateTimer.armed > 0 then Some(UpdateFires) else None
    case StopTimer(a, b) => if a == sid && b == id && sub.stopTimer.armed > 0 then Some(StopFires) else None
    case WriteDone(a) =>
      if a == sid && HasCallback(s, sid) && s.queues[sid][0].id == id then CallbackTurn(s.queues[sid][0]) else None
    case _ => None
  }

  function CallbackTurn(c: Callback): Option<Turn> {
    match c
    case ActivateNew(_) => Some(Activation(true))
    case ActivateModified(_) => Some(Activation(false))
    case ResyncUpdate(_) => Some(Resynchronisation)
    case Terminate(_, _) => None
  }

  ghost predicate Stayed(s: Server, t: Server, sid: nat, id: nat)
    requires Live(s, sid, id) && Live(t, sid, id)
  {
    Sub(t, sid, id) == Sub(s, sid, id) && t.stores == s.stores && Silent(s, t, id) && DueKept(s, t, sid, id)
  }

  ghost predicate Looked(s: Server, t: Server, sid: nat, id: nat)
    requires Live(s, sid, id) && Live(t, sid, id)
  {
    && Observe(Sub(s, sid, id), Selected(t, Sub(s, sid, id)), s.now).sub == Some(Sub(t, sid, id))
    && Silent(s, t, id) && DueKept(s, t, sid, id)
  }

  ghost predicate Ran(s: Server, e: Event, t: Server, sid: nat, id: nat)
    requires Live(s, sid, id) && Live(t, sid, id)
  {
    && TurnOf(s, e, sid, id).Some? && t.stores == s.stores
    && var o := TakeTurn(Sub(s, sid, id), Selected(s, Sub(s, sid, id)), s.now, TurnOf(s, e, sid, id).value);
    o.sub == Some(Sub(t, sid, id)) && t.wire == s.wire + o.sent
    && (DueKept(s, t, sid, id) || TurnOf(s, e, sid, id).value.Activation?)
  }

  /** A modified or new subscription waits for its activation. */
  ghost predicate Awaits(s: Server, e: Event, t: Server, sid: nat, id: nat)
    requires Live(t, sid, id)
  {
    && Due(t.queues, sid, id) && Silent(s, t, id)
    && var sub := Sub(t, sid, id);
    if Live(s, sid, id)
    then e.ModifySub? && sub == Modify(Sub(s, sid, id), e.kind, e.stopTime)
    else e.EstablishSub? && id == s.nextSub && sub == Establish(id, e.kind, e.stopTime)
  }

  /** What a live subscription was before the step, and how it came to be what it is. */
  ghost predicate Became(s: Server, e: Event, t: Server, sid: nat, id: nat)
    requires Live(t, sid, id)
  {
    || Awaits(s, e, t, sid, id)
    || (Live(s, sid, id) && (Stayed(s, t, sid, id) || Looked(s, t, sid, id) || Ran(s, e, t, sid, id)))
  }

  lemma SilentWhenSame(s: Server, t: Server, id: nat)
    requires t.wire == s.wire
    ensures Silent(s, t, id)
  {
  }

  lemma SilentWhenOthers(s: Server, t: Server, sent: seq<Message>, id: nat)
    requires t.wire == s.wire + sent && forall m :: m in sent ==> m.id != id || m.EventRecord?
    ensures Silent(s, t, id)
  {
    assert t.wire[|s.wire|..] == sent;
  }

  lemma EnqueueDue(s: Server, sid: nat, c: Callback, a: nat, id: nat)
    requires sid in s.queues
    ensures Due(s.queues, a, id) ==> Due(Enqueue(s, sid, c).queues, a, id)
    ensures c == ActivateNew(id) || c == ActivateModified(id) ==> Due(Enqueue(s, sid, c).queues, sid, id)
  {
    assert Enqueue(s, sid, c).queues[sid][|s.queues[sid]|] == c;
    assert forall d :: d in s.queues[sid] ==> d in Enqueue(s, sid, c).queues[sid];
  }

  // ------------------------------------------------------------------- by event

  lemma BroadcastLooks(s: Server, u: Server, audience: seq<nat>, t: Server, sid: nat, id: nat)
    requires u.sessions == s.sessions && u.queues == s.queues && u.wire == s.wire && u.now == s.now
    requires t == Broadcast(u, audience) && Live(t, sid, id)
    ensures Live(s, sid, id) && Looked(s, t, sid, id)
  {
    EventRecordsAreEvents(u, audience);
    SilentWhenOthers(s, t, EventRecords(u, audience), id);
    assert Live(Notify(u, audience), sid, id) && Sub(Notify(u, audience), sid, id) == Sub(s, sid, id);
    assert Selected(Notify(u, audience), Sub(s, sid, id)) == Selected(t, Sub(s, sid, id));
  }

  lemma BroadcastBecomes(s: Server, u: Server, e: Event, audience: seq<nat>, t: Server, sid: nat, id: nat)
    requires u.sessions == s.sessions && u.queues == s.queues && u.wire == s.wire && u.now == s.now
    requires t == Broadcast(u, audience) && Live(t, sid, id)
    ensures Became(s, e, t, sid, id)
  {
    BroadcastLooks(s, u, audience, t, sid, id);
  }

  lemma SameBecomes(s: Server, e: Event, sid: nat, id: nat)
    requires Live(s, sid, id)
    ensures Became(s, e, s, sid, id)
  {
    SilentWhenSame(s, s, id);
  }

  lemma WriteBecomes(s: Server, e: Event, t: Server, sid: nat, id: nat)
    requires IsWrite(e) && t == Step(s, e) && Live(t, sid, id)
    ensures Became(s, e, t, sid, id)
  {
    var stores := WriteShape(s, e);
    if t == s {
      SameBecomes(s, e, sid, id);
    } else {
      BroadcastBecomes(s, Revised(s.(stores := stores)), e, e.audience, t, sid, id);
    }
  }

  lemma EnqueueBecomes(s: Server, e: Event, on: nat, c: Callback, sid: nat, id: nat)
    requires on in s.queues && Live(s, sid, id)
    ensures Became(s, e, Enqueue(s, on, c), sid, id)
  {
    EnqueueDue(s, on, c, sid, id);
    SilentWhenSame(s, Enqueue(s, on, c), id);
  }

  lemma RemoveBecomes(s: Server, e: Event, on: nat, gone: nat, sid: nat, id: nat)
    requires Live(StepRemove(s, on, gone), sid, id)
    ensures Became(s, e, StepRemove(s, on, gone), sid, id)
  {
    NothingSent(s.wire);
    SilentWhenSame(s, StepRemove(s, on, gone), id);
  }

  lemma ModifyBecomes(s: Server, e: Event, sid: nat, id: nat)
    requires Inv(s, {}) && e.ModifySub? && Live(StepModify(s, e.sid, e.id, e.kind, e.stopTime), sid, id)
    ensures Became(s, e, StepModify(s, e.sid, e.id, e.kind, e.stopTime), sid, id)
  {
    var t := StepModify(s, e.sid, e.id, e.kind, e.stopTime);
    NothingSent(s.wire);
    SilentWhenSame(s, t, id);
    if CanModify(s, e.sid, e.id, e.kind, e.stopTime) {
      assert Live(s, sid, id);
      EnqueueDue(s, e.sid, ActivateModified(e.id), sid, id);
      assert t.queues == Enqueue(s, e.sid, ActivateModified(e.id)).queues;
    }
  }

  lemma EstablishBecomes(s: Server, e: Event, sid: nat, id: nat)
    requires Inv(s, {}) && e.EstablishSub? && Live(StepEstablish(s, e.sid, e.kind, e.stopTime), sid, id)
    ensures Became(s, e, StepEstablish(s, e.sid, e.kind, e.stopTime), sid, id)
  {
    var t := StepEstablish(s, e.sid, e.kind, e.stopTime);
    SilentWhenSame(s, t, id);
    if t.nextSub != s.nextSub {
      EnqueueDue(s, e.sid, ActivateNew(s.nextSub), sid, id);
      assert t.queues == Enqueue(s, e.sid, ActivateNew(s.nextSub)).queues;
      if id == s.nextSub {
        assert !Live(s, sid, id);
      } else {
        assert Live(s, sid, id);
      }
    }
  }

  /** The outcome of a turn is put back: the subscription has run, the others stay. */
  lemma SettleBecomes(s: Server, e: Event, u: Server, on: nat, which: nat, o: Outcome, sid: nat, id: nat)
    requires Owned(s) && u == s.(queues := u.queues) && Live(s, on, which)
    requires forall m :: m in o.sent ==> m.id == which
    requires var turn, sub := TurnOf(s, e, on, which), Sub(s, on, which);
             o == Outcome(None, []) || (turn.Some? && o == TakeTurn(sub, Selected(s, sub), s.now, turn.value))
    requires Live(Settle(u, on, which, o), sid, id)
    requires DueKept(s, u, sid, id) || (id == which && TurnOf(s, e, on, which).Some?
                                        && TurnOf(s, e, on, which).value.Activation?)
    ensures Became(s, e, Settle(u, on, which, o), sid, id)
  {
    var t := Settle(u, on, which, o);
    assert Live(s, sid, id);
    if id == which {
      assert sid == on;
    } else {
      SilentWhenOthers(s, t, o.sent, id);
    }
  }

  lemma PoppedDue(s: Server, on: nat, sid: nat, id: nat)
    requires HasCallback(s, on)
    ensures DueKept(s, Popped(s, on), sid, id)
            || (sid == on && (s.queues[on][0] == ActivateNew(id) || s.queues[on][0] == ActivateModified(id)))
  {
    var q := s.queues[on];
    assert forall d: Callback :: d in q <==> d == q[0] || d in q[1..];
  }

  /** A turn sends nothing but messages of its own subscription. */
  lemma TurnSendsOwn(sub: Subscription, selection: Selection, now: int, turn: Turn)
    ensures forall m :: m in TakeTurn(sub, selection, now, turn).sent ==> m.id == sub.id
  {
    if turn.Activation? && !Expired(sub, now) && IsPeriodic(sub) {
      var waiting := if turn.initial then sub else ClearTimers(sub);
      DeliverPeriodicShape(ScheduleStop(waiting, now).sub.value, selection, now, turn.initial);
    }
  }

  lemma CallbackIsTurn(s: Server, sub: Subscription, c: Callback)
    ensures CallbackOutcome(s, sub, c) ==
            if c.Terminate? then Outcome(None, []) else TakeTurn(sub, Selected(s, sub), s.now, CallbackTurn(c).value)
  {
  }

  lemma CallbackBecomes(s: Server, on: nat, c: Callback, owner: nat, o: Outcome, sid: nat, id: nat)
    requires Owned(s) && HasCallback(s, on) && c == s.queues[on][0] && owner == CallbackOwner(on, c)
             && Live(s, owner, c.id)
    requires o == CallbackOutcome(s, Sub(s, owner, c.id), c) && Live(Settle(Popped(s, on), owner, c.id, o), sid, id)
    ensures Became(s, WriteDone(on), Settle(Popped(s, on), owner, c.id, o), sid, id)
  {
    var sub := Sub(s, owner, c.id);
    CallbackIsTurn(s, sub, c);
    PoppedDue(s, on, sid, id);
    if !c.Terminate? {
      TurnSendsOwn(sub, Selected(s, sub), s.now, CallbackTurn(c).value);
    }
    SettleBecomes(s, WriteDone(on), Popped(s, on), owner, c.id, o, sid, id);
  }

  lemma WriteDoneBecomes(s: Server, on: nat, sid: nat, id: nat)
    requires Inv(s, {}) && Live(StepWriteDone(s, on), sid, id)
    ensures Became(s, WriteDone(on), StepWriteDone(s, on), sid, id)
  {
    if !HasCallback(s, on) {
      SameBecomes(s, WriteDone(on), sid, id);
    } else {
      var c := s.queues[on][0];
      var owner := CallbackOwner(on, c);
      if Live(s, owner, c.id) {
        CallbackBecomes(s, on, c, owner, CallbackOutcome(s, Sub(s, owner, c.id), c), sid, id);
      } else {
        PoppedDue(s, on, sid, id);
        assert Live(s, sid, id);
        SilentWhenSame(s, Popped(s, on), id);
      }
    }
  }

  lemma TimerBecomes(s: Server, e: Event, on: nat, which: nat, turn: Turn, sid: nat, id: nat)
    requires Owned(s) && Live(s, on, which) && TurnOf(s, e, on, which) == Some(turn)
    requires Live(Settle(s, on, which, TakeTurn(Sub(s, on, which), Selected(s, Sub(s, on, which)), s.now, turn)),
                  sid, id)
    ensures Became(s, e, Settle(s, on, which, TakeTurn(Sub(s, on, which), Selected(s, Sub(s, on, which)), s.now,
                                                       turn)), sid, id)
  {
    var sub := Sub(s, on, which);
    TurnSendsOwn(sub, Selected(s, sub), s.now, turn);
    SettleBecomes(s, e, s, on, which, TakeTurn(sub, Selected(s, sub), s.now, turn), sid, id);
  }

  lemma ChangeTimerBecomes(s: Server, on: nat, which: nat, sid: nat, id: nat)
    requires Owned(s) && Live(StepChangeTimer(s, on, which), sid, id)
    ensures Became(s, ChangeTimer(on, which), StepChangeTimer(s, on, which), sid, id)
  {
    if Live(s, on, which) && Sub(s, on, which).changeTimer.armed > 0 {
      TimerBecomes(s, ChangeTimer(on, which), on, which, ChangeFires, sid, id);
    } else {
      SameBecomes(s, ChangeTimer(on, which), sid, id);
    }
  }

  lemma UpdateTimerBecomes(s: Server, on: nat, which: nat, sid: nat, id: nat)
    requires Owned(s) && Live(StepUpdateTimer(s, on, which), sid, id)
    ensures Became(s, UpdateTimer(on, which), StepUpdateTimer(s, on, which), sid, id)
  {
    if Live(s, on, which) && Sub(s, on, which).updateTimer.armed > 0 {
      TimerBecomes(s, UpdateTimer(on, which), on, which, UpdateFires, sid, id);
    } else {
      SameBecomes(s, UpdateTimer(on, which), sid, id);
    }
  }

  lemma StopTimerBecomes(s: Server, on: nat, which: nat, sid: nat, id: nat)
    requires Owned(s) && Live(StepStopTimer(s, on, which), sid, id)
    ensures Became(s, StopTimer(on, which), StepStopTimer(s, on, which), sid, id)
  {
    if Live(s, on, which) && Sub(s, on, which).stopTimer.armed > 0 {
      TimerBecomes(s, StopTimer(on, which), on, which, StopFires, sid, id);
    } else {
      SameBecomes(s, StopTimer(on, which), sid, id);
    }
  }

  lemma ScheduledBecomes(s: Server, e: Event, t: Server, sid: nat, id: nat)
    requires Owned(s) && IsScheduled(e) && t == Step(s, e) && Live(t, sid, id)
    ensures Became(s, e, t, sid, id)
  {
    if e.ChangeTimer? {
      ChangeTimerBecomes(s, e.sid, e.id, sid, id);
    } else if e.UpdateTimer? {
      UpdateTimerBecomes(s, e.sid, e.id, sid, id);
    } else if e.StopTimer? {
      StopTimerBecomes(s, e.sid, e.id, sid, id);
    } else {
      StayedBecomes(s, e, t, sid, id);
    }
  }

  lemma StayedBecomes(s: Server, e: Event, t: Server, sid: nat, id: nat)
    requires t.wire == s.wire && t.stores == s.stores && Live(s, sid, id) && Live(t, sid, id)
    requires Sub(t, sid, id) == Sub(s, sid, id)
    requires forall a :: a in s.queues ==> a in t.queues && s.queues[a] <= t.queues[a]
    ensures Became(s, e, t, sid, id)
  {
    SilentWhenSame(s, t, id);
    if sid in s.queues {
      assert forall c :: c in s.queues[sid] ==> c in t.queues[sid];
    }
  }

  lemma RequestBecomes(s: Server, e: Event, t: Server, sid: nat, id: nat)
    requires Inv(s, {}) && IsSubscriptionRequest(e) && t == Step(s, e) && Live(t, sid, id)
    ensures Became(s, e, t, sid, id)
  {
    if e.EstablishSub? {
      EstablishBecomes(s, e, sid, id);
    } else if e.ModifySub? {
      ModifyBecomes(s, e, sid, id);
    } else if e.DeleteSub? {
      RemoveBecomes(s, e, e.sid, e.id, sid, id);
    } else {
      TerminateBecomes(s, e, sid, id);
    }
  }

  lemma TerminateBecomes(s: Server, e: Event, sid: nat, id: nat)
    requires e.ConsoleTerminate? && Live(StepTerminate(s, e.id), sid, id)
    ensures Became(s, e, StepTerminate(s, e.id), sid, id)
  {
    if Owner(s, e.id).Some? {
      RemoveBecomes(s, e, Owner(s, e.id).value, e.id, sid, id);
    } else {
      SameBecomes(s, e, sid, id);
    }
  }

  lemma DeferredBecomes(s: Server, e: Event, t: Server, sid: nat, id: nat)
    requires Inv(s, {}) && IsDeferred(e) && t == Step(s, e) && Live(t, sid, id)
    ensures Became(s, e, t, sid, id)
  {
    if e.WriteDone? {
      WriteDoneBecomes(s, e.sid, sid, id);
    } else if t == s {
      SameBecomes(s, e, sid, id);
    } else if e.KillSub? {
      EnqueueBecomes(s, e, e.sid, Terminate(e.id, Owner(s, e.id).value), sid, id);
    } else {
      EnqueueBecomes(s, e, e.sid, ResyncUpdate(e.id), sid, id);
    }
  }

  lemma OpenBecomes(s: Server, e: Event, sid: nat, id: nat)
    requires Inv(s, {}) && Live(StepOpen(s), sid, id)
    ensures Became(s, e, StepOpen(s), sid, id)
  {
    StayedBecomes(s, e, StepOpen(s), sid, id);
  }

  lemma CloseBecomes(s: Server, e: Event, on: nat, sid: nat, id: nat)
    requires Live(StepClose(s, on), sid, id)
    ensures Became(s, e, StepClose(s, on), sid, id)
  {
    StayedBecomes(s, e, StepClose(s, on), sid, id);
  }

  lemma LegacyBecomes(s: Server, e: Event, t: Server, sid: nat, id: nat)
    requires (e.CreateLegacy? || e.CompleteLegacy?) && t == Step(s, e) && Live(t, sid, id)
    ensures Became(s, e, t, sid, id)
  {
    StayedBecomes(s, e, t, sid, id);
  }

  lemma LockBecomes(s: Server, e: Event, t: Server, sid: nat, id: nat)
    requires (e.Lock? || e.Unlock?) && t == Step(s, e) && Live(t, sid, id)
    ensures Became(s, e, t, sid, id)
  {
    StayedBecomes(s, e, t, sid, id);
  }

  lemma OtherBecomes(s: Server, e: Event, t: Server, sid: nat, id: nat)
    requires Inv(s, {}) && !IsWrite(e) && !IsSubscriptionRequest(e) && !IsDeferred(e) && !IsScheduled(e)
    requires t == Step(s, e) && Live(t, sid, id)
    ensures Became(s, e, t, sid, id)
  {
    if e.Open? {
      OpenBecomes(s, e, sid, id);
    } else if e.Close? {
      CloseBecomes(s, e, e.sid, sid, id);
    } else if e.Reset? {
      ResetBecomes(s, e, e.audience, sid, id);
    } else if e.Announce? {
      AnnounceBecomes(s, e, e.audience, sid, id);
    } else if e.Lock? || e.Unlock? {
      LockBecomes(s, e, t, sid, id);
    } else {
      LegacyBecomes(s, e, t, sid, id);
    }
  }

  lemma ResetBecomes(s: Server, e: Event, audience: seq<nat>, sid: nat, id: nat)
    requires Live(StepReset(s, audience), sid, id)
    ensures Became(s, e, StepReset(s, audience), sid, id)
  {
    var initial: StoredConfig := InitialConfig();
    BroadcastBecomes(s, s.(stores := PerStore(initial, initial, initial), locks := PerStore(None, None, None),
                           revision := 1),
                     e, audience, StepReset(s, audience), sid, id);
  }

  lemma AnnounceBecomes(s: Server, e: Event, audience: seq<nat>, sid: nat, id: nat)
    requires Live(Notify(s, audience), sid, id)
    ensures Became(s, e, Notify(s, audience), sid, id)
  {
    EventRecordsAreEvents(s, audience);
    SilentWhenOthers(s, Notify(s, audience), EventRecords(s, audience), id);
  }

  /** Every live subscription after a step is as before, has looked at its selection, ran, or awaits activation. */
  lemma StepBecomes(s: Server, e: Event, t: Server, sid: nat, id: nat)
    requires Inv(s, {}) && t == Step(s, e) && Live(t, sid, id)
    ensures Became(s, e, t, sid, id)
  {
    if IsWrite(e) {
      WriteBecomes(s, e, t, sid, id);
    } else if IsSubscriptionRequest(e) {
      RequestBecomes(s, e, t, sid, id);
    } else if IsDeferred(e) {
      DeferredBecomes(s, e, t, sid, id);
    } else if IsScheduled(e) {
      ScheduledBecomes(s, e, t, sid, id);
    } else {
      OtherBecomes(s, e, t, sid, id);
    }
  }
}
