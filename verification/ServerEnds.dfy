/** When a subscription ends, exactly, and that nothing is sent for it afterwards. */
module ServerEnds {
  import opened Options
  import opened YangPush
  import opened ReplicaProofs
  import opened NetconfServer
  import opened ServerProofs
  import opened ServerRuns
  import opened ServerTheorems
  import opened ServerEffects

  // ---------------------------------------------------------------- conditions

  /** The stop time has come. */
  ghost predicate Over(s: Server, sub: Subscription) {
    sub.stopTime.Some? && s.now >= sub.stopTime.value
  }

  ghost predicate OnChangePush(sub: Subscription) {
    sub.kind.Push? && sub.kind.trigger.OnChange?
  }

  /** Everybody looks at the clock: an announced change ends event-stream and on-change subscriptions that are over,
      a mere announcement only the former. */
  ghost predicate EndsByBroadcast(s: Server, e: Event, sub: Subscription) {
    && Over(s, sub)
    && if e.Announce? then sub.kind.EventStream?
       else (e.Reset? || (IsWrite(e) && Granted(s, e))) && (sub.kind.EventStream? || OnChangePush(sub))
  }

  /** The first callback of session `on` ends subscription `id` of session `sid`: it carries out a kill, or it starts
      or resynchronises a subscription that is over. */
  ghost predicate EndsByCallback(s: Server, on: nat, sid: nat, id: nat, sub: Subscription) {
    && on in s.queues && s.queues[on] != [] && s.queues[on][0].id == id
    && match s.queues[on][0]
       case Terminate(_, owner) => owner == sid
       case ResyncUpdate(_) => on == sid && Over(s, sub) && sub.kind.Push?
       case _ => on == sid && Over(s, sub)
  }

  /** What ends a subscription: its session closes, it is deleted, terminated or killed, or the stop time has come and
      something of it runs. */
  ghost predicate EndsBy(s: Server, e: Event, sid: nat, id: nat, sub: Subscription) {
    match e
    case Close(a) => a == sid
    case DeleteSub(a, b) => a == sid && b == id
    case ConsoleTerminate(b) => b == id
    case WriteDone(a) => EndsByCallback(s, a, sid, id, sub)
    case ChangeTimer(a, b) => a == sid && b == id && sub.changeTimer.armed > 0 && Over(s, sub)
    case UpdateTimer(a, b) => a == sid && b == id && sub.updateTimer.armed > 0 && Over(s, sub)
    case StopTimer(a, b) => a == sid && b == id && sub.stopTimer.armed > 0 && Over(s, sub)
    case _ => EndsByBroadcast(s, e, sub)
  }

  // --------------------------------------------------------------- one outcome

  lemma SettledLive(s: Server, on: nat, which: nat, o: Outcome, sid: nat, id: nat)
    requires Owned(s) && Live(s, on, which) && Live(s, sid, id)
    ensures !Live(Settle(s, on, which, o), sid, id) <==> id == which && o.sub.None?
  {
    assert id == which ==> sid == on;
  }

  lemma ChangeEnds(sub: Subscription, selection: Selection, now: int, o: Outcome)
    requires o == FireChange(sub, selection, now)
    ensures o.sub.None? <==> Expired(sub, now)
  {
  }

  lemma UpdateEnds(sub: Subscription, selection: Selection, now: int, o: Outcome)
    requires o == FireUpdate(sub, selection, now)
    ensures o.sub.None? <==> Expired(sub, now) && IsPeriodic(sub)
  {
  }

  lemma StopEnds(sub: Subscription, now: int, o: Outcome)
    requires o == FireStop(sub, now)
    ensures o.sub.None? <==> Expired(sub, now)
  {
  }

  lemma DeliverEnds(sub: Subscription, selection: Selection, now: int, initial: bool)
    ensures Deliver(sub, selection, now, initial).sub.None? <==> Expired(sub, now)
  {
    if !Expired(sub, now) && IsPeriodic(sub) {
      DeliverPeriodicShape(ScheduleStop(sub, now).sub.value, selection, now, initial);
    }
  }

  lemma CallbackEnds(s: Server, sub: Subscription, c: Callback)
    ensures CallbackOutcome(s, sub, c).sub.None? <==>
            c.Terminate? || (Expired(sub, s.now) && (c.ResyncUpdate? ==> sub.kind.Push?))
  {
    DeliverEnds(sub, Selected(s, sub), s.now, true);
    DeliverEnds(ClearTimers(sub), Selected(s, sub), s.now, false);
  }

  lemma ObserveEnds(sub: Subscription, selection: Selection, now: int)
    ensures Observe(sub, selection, now).sub.None? <==> IsOnChange(sub) && Expired(sub, now)
  {
  }

  // ------------------------------------------------------------------ by event

  ghost predicate EndsRightly(s: Server, e: Event, t: Server, sid: nat, id: nat)
    requires Live(s, sid, id)
  {
    !Live(t, sid, id) <==> EndsBy(s, e, sid, id, Sub(s, sid, id))
  }

  /** The armed timer of a subscription runs and ends it exactly when it is over. */
  lemma TimerEnds(s: Server, e: Event, on: nat, which: nat, o: Outcome, sid: nat, id: nat)
    requires Owned(s) && Live(s, on, which) && Live(s, sid, id)
    requires var sub := Sub(s, on, which);
             (e == ChangeTimer(on, which) && sub.changeTimer.armed > 0)
             || (e == UpdateTimer(on, which) && sub.updateTimer.armed > 0)
             || (e == StopTimer(on, which) && sub.stopTimer.armed > 0)
    requires o.sub.None? <==> Over(s, Sub(s, on, which))
    ensures EndsRightly(s, e, Settle(s, on, which, o), sid, id)
  {
    SettledLive(s, on, which, o, sid, id);
    assert id == which ==> sid == on;
  }

  lemma ChangeTimerEnds(s: Server, on: nat, which: nat, t: Server, sid: nat, id: nat)
    requires Owned(s) && Live(s, sid, id) && t == StepChangeTimer(s, on, which)
    ensures EndsRightly(s, ChangeTimer(on, which), t, sid, id)
  {
    if Live(s, on, which) && Sub(s, on, which).changeTimer.armed > 0 {
      var sub := Sub(s, on, which);
      var o := FireChange(sub, Selected(s, sub), s.now);
      ChangeEnds(sub, Selected(s, sub), s.now, o);
      TimerEnds(s, ChangeTimer(on, which), on, which, o, sid, id);
    }
  }

  lemma UpdateTimerEnds(s: Server, on: nat, which: nat, t: Server, sid: nat, id: nat)
    requires Owned(s) && SubsOk(s, {}) && Live(s, sid, id) && t == StepUpdateTimer(s, on, which)
    ensures EndsRightly(s, UpdateTimer(on, which), t, sid, id)
  {
    if Live(s, on, which) && Sub(s, on, which).updateTimer.armed > 0 {
      var sub := Sub(s, on, which);
      assert SubOk(sub, s.wire, s.queues, on, on in {});
      var o := FireUpdate(sub, Selected(s, sub), s.now);
      UpdateEnds(sub, Selected(s, sub), s.now, o);
      TimerEnds(s, UpdateTimer(on, which), on, which, o, sid, id);
    }
  }

  lemma StopTimerEnds(s: Server, on: nat, which: nat, t: Server, sid: nat, id: nat)
    requires Owned(s) && Live(s, sid, id) && t == StepStopTimer(s, on, which)
    ensures EndsRightly(s, StopTimer(on, which), t, sid, id)
  {
    if Live(s, on, which) && Sub(s, on, which).stopTimer.armed > 0 {
      var sub := Sub(s, on, which);
      var o := FireStop(sub, s.now);
      StopEnds(sub, s.now, o);
      TimerEnds(s, StopTimer(on, which), on, which, o, sid, id);
    }
  }

  lemma CallbackEndsRightly(s: Server, on: nat, c: Callback, owner: nat, o: Outcome, sid: nat, id: nat)
    requires Owned(s) && Live(s, sid, id) && HasCallback(s, on) && c == s.queues[on][0]
    requires owner == CallbackOwner(on, c) && Live(s, owner, c.id)
    requires var sub := Sub(s, owner, c.id);
             o.sub.None? <==> c.Terminate? || (Over(s, sub) && (c.ResyncUpdate? ==> sub.kind.Push?))
    ensures EndsRightly(s, WriteDone(on), Settle(Popped(s, on), owner, c.id, o), sid, id)
  {
    PoppedOwned(s, on, sid, id);
    PoppedOwned(s, on, owner, c.id);
    SettledLive(Popped(s, on), owner, c.id, o, sid, id);
    assert id == c.id ==> sid == owner;
  }

  lemma WriteDoneEnds(s: Server, on: nat, t: Server, sid: nat, id: nat)
    requires Owned(s) && Live(s, sid, id) && t == StepWriteDone(s, on)
    ensures EndsRightly(s, WriteDone(on), t, sid, id)
  {
    if HasCallback(s, on) {
      var c := s.queues[on][0];
      var owner := CallbackOwner(on, c);
      if Live(s, owner, c.id) {
        CallbackEnds(s, Sub(s, owner, c.id), c);
        CallbackEndsRightly(s, on, c, owner, CallbackOutcome(s, Sub(s, owner, c.id), c), sid, id);
      } else {
        PoppedOwned(s, on, sid, id);
      }
    }
  }

  lemma PoppedOwned(s: Server, on: nat, sid: nat, id: nat)
    requires Owned(s) && HasCallback(s, on)
    ensures Owned(Popped(s, on)) && (Live(Popped(s, on), sid, id) <==> Live(s, sid, id))
  {
    assert forall a: nat, b: nat :: Live(Popped(s, on), a, b) <==> Live(s, a, b);
  }

  lemma RemoveEnds(s: Server, on: nat, which: nat, t: Server, sid: nat, id: nat)
    requires Owned(s) && Live(s, sid, id) && t == StepRemove(s, on, which)
    ensures !Live(t, sid, id) <==> on == sid && which == id
  {
    if Live(s, on, which) {
      SettledLive(s, on, which, Outcome(None, []), sid, id);
      assert id == which ==> sid == on;
    }
  }

  lemma TerminateEnds(s: Server, which: nat, t: Server, sid: nat, id: nat)
    requires Owned(s) && Live(s, sid, id) && t == StepTerminate(s, which)
    ensures !Live(t, sid, id) <==> which == id
  {
    if Owner(s, which).Some? {
      RemoveEnds(s, Owner(s, which).value, which, t, sid, id);
      assert id == which ==> sid == Owner(s, which).value;
    }
  }

  lemma BroadcastEnds(s: Server, u: Server, audience: seq<nat>, t: Server, sid: nat, id: nat)
    requires Live(s, sid, id) && u.sessions == s.sessions && u.now == s.now && t == Broadcast(u, audience)
    ensures var sub := Sub(s, sid, id);
            !Live(t, sid, id) <==> Over(s, sub) && (sub.kind.EventStream? || OnChangePush(sub))
  {
    var n, sub := Notify(u, audience), Sub(s, sid, id);
    assert Live(n, sid, id) <==> !(sub.kind.EventStream? && Expired(sub, s.now));
    ObserveEnds(sub, Selected(n, sub), s.now);
  }

  lemma NotifyEnds(s: Server, audience: seq<nat>, t: Server, sid: nat, id: nat)
    requires Live(s, sid, id) && t == Notify(s, audience)
    ensures !Live(t, sid, id) <==> Over(s, Sub(s, sid, id)) && Sub(s, sid, id).kind.EventStream?
  {
  }

  lemma GrantedEnds(s: Server, e: Event, stores: PerStore<StoredConfig>, t: Server, sid: nat, id: nat)
    requires IsWrite(e) && Granted(s, e) && Live(s, sid, id) && t == Changed(s.(stores := stores), e.audience)
    ensures EndsRightly(s, e, t, sid, id)
  {
    BroadcastEnds(s, Revised(s.(stores := stores)), e.audience, t, sid, id);
  }

  lemma RefusedEnds(s: Server, e: Event, sid: nat, id: nat)
    requires IsWrite(e) && !Granted(s, e) && Live(s, sid, id)
    ensures EndsRightly(s, e, s, sid, id)
  {
  }

  lemma WriteEnds(s: Server, e: Event, sid: nat, id: nat)
    requires IsWrite(e) && Live(s, sid, id)
    ensures EndsRightly(s, e, Step(s, e), sid, id)
  {
    var stores := WriteShape(s, e);
    WriteEffect(s, e, Running);
    if Granted(s, e) {
      GrantedEnds(s, e, stores, Changed(s.(stores := stores), e.audience), sid, id);
    } else {
      RefusedEnds(s, e, sid, id);
    }
  }

  lemma ResetEnds(s: Server, audience: seq<nat>, t: Server, sid: nat, id: nat)
    requires Live(s, sid, id) && t == StepReset(s, audience)
    ensures EndsRightly(s, Reset(audience), t, sid, id)
  {
    BroadcastEnds(s, s.(stores := InitialServer(0).stores, locks := InitialServer(0).locks, revision := 1), audience, t,
                  sid, id);
  }

  lemma RequestEnds(s: Server, e: Event, t: Server, sid: nat, id: nat)
    requires Owned(s) && (e.DeleteSub? || e.ConsoleTerminate?) && Live(s, sid, id) && t == Step(s, e)
    ensures EndsRightly(s, e, t, sid, id)
  {
    if e.DeleteSub? {
      RemoveEnds(s, e.sid, e.id, t, sid, id);
    } else {
      TerminateEnds(s, e.id, t, sid, id);
    }
  }

  lemma TimersEnd(s: Server, e: Event, sid: nat, id: nat)
    requires Inv(s, {}) && (e.ChangeTimer? || e.UpdateTimer? || e.StopTimer?) && Live(s, sid, id)
    ensures EndsRightly(s, e, Step(s, e), sid, id)
  {
    TimerSteps(s, e);
    if e.ChangeTimer? {
      ChangeTimerEnds(s, e.sid, e.id, StepChangeTimer(s, e.sid, e.id), sid, id);
    } else if e.UpdateTimer? {
      UpdateTimerEnds(s, e.sid, e.id, StepUpdateTimer(s, e.sid, e.id), sid, id);
    } else {
      StopTimerEnds(s, e.sid, e.id, StepStopTimer(s, e.sid, e.id), sid, id);
    }
  }

  lemma TimerSteps(s: Server, e: Event)
    ensures e.ChangeTimer? ==> Step(s, e) == StepChangeTimer(s, e.sid, e.id)
    ensures e.UpdateTimer? ==> Step(s, e) == StepUpdateTimer(s, e.sid, e.id)
    ensures e.StopTimer? ==> Step(s, e) == StepStopTimer(s, e.sid, e.id)
  {
  }

  lemma DeviceEnds(s: Server, e: Event, t: Server, sid: nat, id: nat)
    requires (e.Reset? || e.Announce? || e.Close?) && Live(s, sid, id) && t == Step(s, e)
    ensures EndsRightly(s, e, t, sid, id)
  {
    if e.Reset? {
      ResetEnds(s, e.audience, t, sid, id);
    } else if e.Announce? {
      NotifyEnds(s, e.audience, t, sid, id);
    }
  }

  lemma RequestsEndNothing(s: Server, e: Event, t: Server, sid: nat, id: nat)
    requires e.KillSub? || e.Resync? || e.EstablishSub? || e.ModifySub?
    requires Live(s, sid, id) && t == Step(s, e)
    ensures Live(t, sid, id)
  {
  }

  lemma OthersEndNothing(s: Server, e: Event, t: Server, sid: nat, id: nat)
    requires e.Open? || e.Lock? || e.Unlock? || e.CreateLegacy? || e.CompleteLegacy? || e.Clock?
    requires Inv(s, {}) && Live(s, sid, id) && t == Step(s, e)
    ensures Live(t, sid, id)
  {
    assert sid < s.nextSession;
  }

  /** A step ends a live subscription exactly when it is one of the ways to end it. */
  lemma EndsIff(s: Server, e: Event, sid: nat, id: nat)
    requires Inv(s, {}) && Live(s, sid, id)
    ensures !Live(Step(s, e), sid, id) <==> EndsBy(s, e, sid, id, Sub(s, sid, id))
  {
    if IsWrite(e) {
      WriteEnds(s, e, sid, id);
    } else if e.DeleteSub? || e.ConsoleTerminate? {
      RequestEnds(s, e, Step(s, e), sid, id);
    } else if e.WriteDone? {
      WriteDoneStep(s, e);
      WriteDoneEnds(s, e.sid, StepWriteDone(s, e.sid), sid, id);
    } else if e.ChangeTimer? || e.UpdateTimer? || e.StopTimer? {
      TimersEnd(s, e, sid, id);
    } else if e.Reset? || e.Announce? || e.Close? {
      DeviceEnds(s, e, Step(s, e), sid, id);
    } else if e.KillSub? || e.Resync? || e.EstablishSub? || e.ModifySub? {
      RequestsEndNothing(s, e, Step(s, e), sid, id);
    } else {
      OthersEndNothing(s, e, Step(s, e), sid, id);
    }
  }

  // --------------------------------------------------------------------- runs

  /** Once a live subscription has been deleted, killed, terminated, stopped or closed with its session, in every run
      nothing at all is sent for its id any more, and the id never comes back. */
  lemma EndIsFinal(states: seq<Server>, events: seq<Event>, j: nat, k: nat, sid: nat, m: Message)
    requires IsRun(states, events) && j < k < |events|
    requires Live(states[j], sid, m.id) && EndsBy(states[j], events[j], sid, m.id, Sub(states[j], sid, m.id))
    ensures !SentAt(states, events, k, m)
    ensures forall a: nat :: !Live(states[k], a, m.id)
  {
    RunKeepsInv(states, events, j);
    RunKeepsInv(states, events, j + 1);
    assert states[j + 1] == Step(states[j], events[j]);
    EndsIff(states[j], events[j], sid, m.id);
    GoneEverywhere(states[j], events[j], sid, m.id);
    EndedStaysEnded(states, events, j + 1, k, m.id);
    EndedIsSilent(states, events, j + 1, k, m);
  }

  lemma GoneEverywhere(s: Server, e: Event, sid: nat, id: nat)
    requires Owned(s) && Live(s, sid, id) && !Live(Step(s, e), sid, id)
    ensures Ended(Step(s, e), id)
  {
    OnlyEstablishCreates(s, e, sid, id);
    forall a: nat ensures !Live(Step(s, e), a, id) {
      OnlyEstablishCreates(s, e, a, id);
    }
  }
}
