/** Theorems about every run of the NETCONF server. */
module ServerRuns {
  import opened Options
  import opened SelectionDiff
  import opened EditConfig
  import opened YangPush
  import opened ReplicaProofs
  import opened NetconfServer
  import opened ServerProofs
  import opened ServerSteps

  /** A run from a fresh server: `states[i + 1]` is `states[i]` after `events[i]`. */
  ghost predicate IsRun(states: seq<Server>, events: seq<Event>) {
    && |states| == |events| + 1
    && states[0] == InitialServer(states[0].now)
    && forall i :: 0 <= i < |events| ==> states[i + 1] == Step(states[i], events[i])
  }

  lemma {:induction false} RunKeepsInv(states: seq<Server>, events: seq<Event>, k: nat)
    requires IsRun(states, events) && k < |states|
    ensures Inv(states[k], {})
    decreases k
  {
    if k > 0 {
      RunKeepsInv(states, events, k - 1);
      StepKeeps(states[k - 1], events[k - 1], {});
      assert states[k - 1 + 1] == Step(states[k - 1], events[k - 1]);
    }
  }

  // -------------------------------------------------- selections are current

  /** An on-change subscription with no activation due has observed the selection as it is now. */
  ghost predicate CurrentAt(s: Server, sid: nat, sub: Subscription) {
    IsOnChange(sub) && !Due(s.queues, sid, sub.id) ==> sub.observed == Some(Selected(s, sub))
  }

  lemma DeliverObserves(sub: Subscription, selection: Selection, now: int, initial: bool)
    ensures var o := Deliver(sub, selection, now, initial);
            o.sub.Some? ==> o.sub.value.kind == sub.kind && o.sub.value.id == sub.id
                            && (IsOnChange(sub) ==> o.sub.value.observed == Some(selection))
  {
    if !Expired(sub, now) && IsPeriodic(sub) {
      DeliverPeriodicShape(ScheduleStop(sub, now).sub.value, selection, now, initial);
    }
  }

  /** A turn keeps the kind, and leaves the baseline alone or moves it to the selection of the moment. */
  lemma TurnObserves(sub: Subscription, selection: Selection, now: int, turn: Turn)
    ensures var o := TakeTurn(sub, selection, now, turn);
            o.sub.Some? ==> o.sub.value.kind == sub.kind && o.sub.value.id == sub.id
                            && (IsOnChange(sub) && o.sub.value.observed != Some(selection) ==>
                                  o.sub.value.observed == sub.observed && !turn.Activation?)
  {
    if turn.Activation? {
      DeliverObserves(if turn.initial then sub else ClearTimers(sub), selection, now, turn.initial);
    }
  }

  lemma RanCurrent(s: Server, e: Event, t: Server, sid: nat, id: nat)
    requires Live(s, sid, id) && Live(t, sid, id) && Ran(s, e, t, sid, id) && Sub(s, sid, id).id == id
    requires CurrentAt(s, sid, Sub(s, sid, id))
    ensures CurrentAt(t, sid, Sub(t, sid, id))
  {
    var sub := Sub(s, sid, id);
    TurnObserves(sub, Selected(s, sub), s.now, TurnOf(s, e, sid, id).value);
  }

  lemma LookedCurrent(s: Server, t: Server, sid: nat, id: nat)
    requires Live(s, sid, id) && Live(t, sid, id) && Looked(s, t, sid, id)
    ensures CurrentAt(t, sid, Sub(t, sid, id))
  {
    ObserveObserves(Sub(s, sid, id), Selected(t, Sub(s, sid, id)), s.now);
  }

  lemma ObserveObserves(sub: Subscription, selection: Selection, now: int)
    ensures var o := Observe(sub, selection, now);
            o.sub.Some? ==>
              o.sub.value.kind == sub.kind && (IsOnChange(sub) ==> o.sub.value.observed == Some(selection))
  {
  }

  lemma BecameCurrent(s: Server, e: Event, t: Server, sid: nat, id: nat)
    requires Owned(s) && Owned(t) && Live(t, sid, id) && Became(s, e, t, sid, id)
    requires Live(s, sid, id) ==> CurrentAt(s, sid, Sub(s, sid, id))
    ensures CurrentAt(t, sid, Sub(t, sid, id))
  {
    if !Awaits(s, e, t, sid, id) {
      if Looked(s, t, sid, id) {
        LookedCurrent(s, t, sid, id);
      } else if Ran(s, e, t, sid, id) {
        RanCurrent(s, e, t, sid, id);
      }
    }
  }

  lemma StepCurrent(s: Server, e: Event, t: Server, sid: nat, id: nat)
    requires Inv(s, {}) && t == Step(s, e) && Live(t, sid, id)
    requires Live(s, sid, id) ==> CurrentAt(s, sid, Sub(s, sid, id))
    ensures CurrentAt(t, sid, Sub(t, sid, id))
  {
    StepKeeps(s, e, {});
    StepBecomes(s, e, t, sid, id);
    BecameCurrent(s, e, t, sid, id);
  }

  ghost predicate Current(s: Server) {
    forall sid: nat, id: nat :: Live(s, sid, id) ==> CurrentAt(s, sid, Sub(s, sid, id))
  }

  lemma AllCurrent(s: Server, e: Event, t: Server)
    requires Inv(s, {}) && t == Step(s, e) && Current(s)
    ensures Current(t)
  {
    forall sid: nat, id: nat | Live(t, sid, id) ensures CurrentAt(t, sid, Sub(t, sid, id)) {
      StepCurrent(s, e, t, sid, id);
    }
  }

  /** In every state of every run, on-change subscriptions with no activation due are current. */
  lemma {:induction false} RunKeepsCurrent(states: seq<Server>, events: seq<Event>, k: nat)
    requires IsRun(states, events) && k < |states|
    ensures Current(states[k])
    decreases k
  {
    if k == 0 {
      StartsCurrent(states[0]);
    } else {
      RunKeepsCurrent(states, events, k - 1);
      RunKeepsInv(states, events, k - 1);
      assert states[k - 1 + 1] == Step(states[k - 1], events[k - 1]);
      AllCurrent(states[k - 1], events[k - 1], states[k]);
    }
  }

  lemma StartsCurrent(s: Server)
    requires s.sessions == map[]
    ensures Current(s)
  {
  }

  // ---------------------------------------------------- what a step may send

  /** A push-update of the selection of this moment, for a subscription before its stop time. */
  ghost predicate IsUpdateOf(m: Message, sub: Subscription, selection: Selection, now: int) {
    m == PushUpdate(sub.id, now, selection, IsOnChange(sub)) && sub.kind.Push? && !Expired(sub, now)
  }

  /** A push-change-update with the next patch id, outside the dampening period and before the stop time. */
  ghost predicate IsChangeOf(m: Message, sub: Subscription, now: int) {
    && m.PushChangeUpdate? && m.id == sub.id && m.at == now && m.patch == sub.patchId
    && IsOnChange(sub) && !Dampened(sub, now) && !Expired(sub, now)
  }

  lemma TickSends(sub: Subscription, selection: Selection, now: int)
    ensures var o := Tick(sub, selection, now);
            o.sent == [] || (o.sub.Some? && |o.sent| == 1 && IsUpdateOf(o.sent[0], sub, selection, now))
  {
  }

  lemma DeliverSends(sub: Subscription, selection: Selection, now: int, initial: bool)
    ensures var o := Deliver(sub, selection, now, initial);
            o.sent == [] || (o.sub.Some? && |o.sent| == 1 && IsUpdateOf(o.sent[0], sub, selection, now))
  {
    if !Expired(sub, now) && IsPeriodic(sub) {
      DeliverPeriodicShape(ScheduleStop(sub, now).sub.value, selection, now, initial);
    }
  }

  lemma CallbackSends(s: Server, sub: Subscription, c: Callback)
    ensures var o := CallbackOutcome(s, sub, c);
            o.sent == [] || (o.sub.Some? && |o.sent| == 1 && IsUpdateOf(o.sent[0], sub, Selected(s, sub), s.now))
  {
    DeliverSends(sub, Selected(s, sub), s.now, true);
    DeliverSends(ClearTimers(sub), Selected(s, sub), s.now, false);
  }

  lemma FireChangeSends(sub: Subscription, selection: Selection, now: int)
    ensures var o := FireChange(sub, selection, now);
            o.sent == [] || (o.sub.Some? && |o.sent| == 1 && IsChangeOf(o.sent[0], sub, now))
  {
  }

  /** Every message of a step is an event record for a live event-stream subscription, an update, or a change
      update. */
  ghost predicate Justified(s: Server, e: Event, after: seq<Message>, m: Message) {
    exists sid: nat :: Live(s, sid, m.id) && JustifiedBy(s, e, after, m, sid, Sub(s, sid, m.id))
  }

  ghost predicate JustifiedBy(s: Server, e: Event, after: seq<Message>, m: Message, sid: nat, sub: Subscription) {
    match m
    case EventRecord(_, at) => at == s.now && sub.kind.EventStream? && !Expired(sub, s.now)
    case PushUpdate(_, _, _, _) => IsUpdateOf(m, sub, Selected(s, sub), s.now) && after == s.wire + [m]
                                   && (e.WriteDone? || e == UpdateTimer(sid, m.id))
    case PushChangeUpdate(_, _, _, _) => IsChangeOf(m, sub, s.now) && e == ChangeTimer(sid, m.id)
                                         && sub.changeTimer.armed > 0 && after == s.wire + [m]
  }

  /** The step only adds to the wire, and each addition is justified. */
  ghost predicate SendsJustified(s: Server, e: Event, after: seq<Message>) {
    s.wire <= after && forall m :: m in after[|s.wire|..] ==> Justified(s, e, after, m)
  }

  lemma NoneSent(s: Server, e: Event)
    ensures SendsJustified(s, e, s.wire)
  {
  }

  lemma OneSent(s: Server, e: Event, sid: nat, id: nat, m: Message)
    requires Live(s, sid, id) && m.id == id
    requires JustifiedBy(s, e, s.wire + [m], m, sid, Sub(s, sid, id))
    ensures SendsJustified(s, e, s.wire + [m])
  {
    assert (s.wire + [m])[|s.wire|..] == [m];
  }

  lemma WriteDoneSends(s: Server, sid: nat)
    requires Owned(s)
    ensures SendsJustified(s, WriteDone(sid), StepWriteDone(s, sid).wire)
  {
    NoneSent(s, WriteDone(sid));
    if HasCallback(s, sid) {
      var c := s.queues[sid][0];
      var owner := CallbackOwner(sid, c);
      if Live(s, owner, c.id) {
        var sub := Sub(s, owner, c.id);
        var o := CallbackOutcome(s, sub, c);
        CallbackSends(s, sub, c);
        assert s.wire + [] == s.wire;
        if o.sent != [] {
          assert o.sent == [o.sent[0]];
          OneSent(s, WriteDone(sid), owner, c.id, o.sent[0]);
        }
      }
    }
  }

  lemma ChangeTimerSends(s: Server, sid: nat, id: nat)
    requires Owned(s)
    ensures SendsJustified(s, ChangeTimer(sid, id), StepChangeTimer(s, sid, id).wire)
  {
    NoneSent(s, ChangeTimer(sid, id));
    if Live(s, sid, id) && Sub(s, sid, id).changeTimer.armed > 0 {
      var sub := Sub(s, sid, id);
      var o := FireChange(sub, Selected(s, sub), s.now);
      FireChangeSends(sub, Selected(s, sub), s.now);
      assert s.wire + [] == s.wire;
      if o.sent != [] {
        assert o.sent == [o.sent[0]];
        OneSent(s, ChangeTimer(sid, id), sid, id, o.sent[0]);
      }
    }
  }

  lemma UpdateTimerSends(s: Server, sid: nat, id: nat)
    requires Owned(s)
    ensures SendsJustified(s, UpdateTimer(sid, id), StepUpdateTimer(s, sid, id).wire)
  {
    NoneSent(s, UpdateTimer(sid, id));
    if Live(s, sid, id) && Sub(s, sid, id).updateTimer.armed > 0 {
      var sub := Sub(s, sid, id);
      var o := FireUpdate(sub, Selected(s, sub), s.now);
      TickSends(sub.(updateTimer := Fired(sub.updateTimer)), Selected(s, sub), s.now);
      assert s.wire + [] == s.wire;
      if o.sent != [] {
        assert o.sent == [o.sent[0]];
        OneSent(s, UpdateTimer(sid, id), sid, id, o.sent[0]);
      }
    }
  }

  lemma NotifySends(s: Server, t: Server, e: Event, audience: seq<nat>)
    requires t.sessions == s.sessions && t.now == s.now && t.wire == s.wire
    ensures SendsJustified(s, e, Notify(t, audience).wire)
  {
    var sent := EventRecords(t, audience);
    EventRecordsAreEvents(t, audience);
    assert (s.wire + sent)[|s.wire|..] == sent;
    forall m | m in sent ensures Justified(s, e, s.wire + sent, m) {
      var sid: nat :| Hears(t, sid, m.id);
      assert Live(s, sid, m.id) && JustifiedBy(s, e, s.wire + sent, m, sid, Sub(s, sid, m.id));
    }
  }

  lemma ChangedSends(s: Server, stores: PerStore<StoredConfig>, e: Event, audience: seq<nat>)
    ensures SendsJustified(s, e, Changed(s.(stores := stores), audience).wire)
  {
    NotifySends(s, s.(stores := stores, revision := s.revision + 1), e, audience);
  }

  lemma WriteSends(s: Server, e: Event)
    requires IsWrite(e)
    ensures SendsJustified(s, e, Step(s, e).wire)
  {
    NoneSent(s, e);
    var stores := WriteShape(s, e);
    ChangedSends(s, stores, e, e.audience);
  }

  /** Every message of every step is justified. */
  lemma StepSends(s: Server, e: Event)
    requires Owned(s)
    ensures SendsJustified(s, e, Step(s, e).wire)
  {
    NoneSent(s, e);
    if IsWrite(e) {
      WriteSends(s, e);
    } else {
      match e
      case Reset(audience) =>
        NotifySends(s, s.(stores := PerStore(InitialConfig(), InitialConfig(), InitialConfig()),
                          locks := PerStore(None, None, None), revision := 1), e, audience);
      case Announce(audience) => NotifySends(s, s, e, audience);
      case WriteDone(sid) => WriteDoneSends(s, sid);
      case ChangeTimer(sid, id) => ChangeTimerSends(s, sid, id);
      case UpdateTimer(sid, id) => UpdateTimerSends(s, sid, id);
      case _ => OtherStepsAreSilent(s, e);
    }
  }

  lemma OtherStepsAreSilent(s: Server, e: Event)
    requires !IsWrite(e) && !e.Reset? && !e.Announce? && !e.WriteDone? && !e.ChangeTimer? && !e.UpdateTimer?
    ensures Step(s, e).wire == s.wire
  {
  }

  // ------------------------------------------------------ replica agreement

  /** The step from `s` to `t` pushes a whole selection for `id`. */
  ghost predicate Updates(s: Server, t: Server, id: nat) {
    |s.wire| <= |t.wire| && exists m :: m in t.wire[|s.wire|..] && m.PushUpdate? && m.id == id
  }

  /** An outcome that pushes a whole selection for `id` puts its receiver in step, wherever that was before. */
  lemma SettledInStep(s: Server, sid: nat, id: nat, o: Outcome, m: Message)
    requires Owned(s) && Live(s, sid, id) && Restarts(o) && o.sent == [m] && m.PushUpdate? && m.id == id
    ensures InStepOf(Settle(s, sid, id, o), id)
  {
    AfterUpdate(s.wire, m);
    InStepAfresh(o.sub.value, m.contents);
    var t := Settle(s, sid, id, o);
    forall a: nat | Live(t, a, id) ensures InStep(Sub(t, a, id), Replica(t.wire, id)) {
      assert Live(s, a, id);
      assert a == sid;
    }
  }

  lemma WriteDoneHeals(s: Server, sid: nat, id: nat, m: Message)
    requires Inv(s, {}) && StepWriteDone(s, sid).wire == s.wire + [m] && m.PushUpdate? && m.id == id
    ensures InStepOf(StepWriteDone(s, sid), id)
  {
    NothingSent(s.wire);
    var c := s.queues[sid][0];
    var owner := CallbackOwner(sid, c);
    var sub := Sub(s, owner, c.id);
    var o := CallbackOutcome(s, sub, c);
    assert (s.wire + o.sent)[|s.wire|..] == o.sent && (s.wire + [m])[|s.wire|..] == [m];
    CallbackSends(s, sub, c);
    DeliverRestarts(sub, Selected(s, sub), s.now, true);
    DeliverRestarts(ClearTimers(sub), Selected(s, sub), s.now, false);
    PoppedKeepsElsewhere(s, sid, {});
    SettledInStep(Popped(s, sid), owner, id, o, m);
  }

  lemma UpdateTimerHeals(s: Server, sid: nat, id: nat, m: Message)
    requires Inv(s, {}) && StepUpdateTimer(s, sid, id).wire == s.wire + [m] && m.PushUpdate? && m.id == id
    ensures InStepOf(StepUpdateTimer(s, sid, id), id)
  {
    NothingSent(s.wire);
    var sub := Sub(s, sid, id);
    var o := FireUpdate(sub, Selected(s, sub), s.now);
    assert (s.wire + o.sent)[|s.wire|..] == o.sent && (s.wire + [m])[|s.wire|..] == [m];
    TickRestarts(sub.(updateTimer := Fired(sub.updateTimer)), Selected(s, sub), s.now);
    SettledInStep(s, sid, id, o, m);
  }

  /** A push-update is the one message of its step, which is a write callback or the subscription's update timer. */
  lemma UpdateOf(s: Server, e: Event, t: Server, id: nat) returns (m: Message)
    requires Owned(s) && t == Step(s, e) && Updates(s, t, id)
    ensures m.PushUpdate? && m.id == id && t.wire == s.wire + [m]
    ensures e.WriteDone? || (e.UpdateTimer? && e.id == id)
  {
    StepSends(s, e);
    m :| m in t.wire[|s.wire|..] && m.PushUpdate? && m.id == id;
    assert Justified(s, e, t.wire, m);
  }

  /** A push-update heals: afterwards its receiver is in step, whatever was lost before. */
  lemma UpdateHeals(s: Server, e: Event, id: nat)
    requires Inv(s, {}) && Updates(s, Step(s, e), id)
    ensures InStepOf(Step(s, e), id)
  {
    var m := UpdateOf(s, e, Step(s, e), id);
    if e.WriteDone? {
      WriteDoneHeals(s, e.sid, id, m);
    } else {
      UpdateTimerHeals(s, e.sid, id, m);
    }
  }

  ghost predicate UpdatedAt(states: seq<Server>, k: nat, id: nat) {
    k + 1 < |states| && Updates(states[k], states[k + 1], id)
  }

  /** Before state `k`, every loss of edits of `id` has been followed by a push-update for `id`. */
  ghost predicate Intact(states: seq<Server>, events: seq<Event>, k: nat, id: nat)
    requires k <= |events| <= |states|
  {
    forall i :: 0 <= i < k && LosesEdits(states[i], events[i], id) ==>
      exists j: nat :: i < j < k && UpdatedAt(states, j, id)
  }

  lemma {:induction false} RunKeepsInStep(states: seq<Server>, events: seq<Event>, k: nat, id: nat)
    requires IsRun(states, events) && k < |states| && Intact(states, events, k, id)
    ensures Inv(states[k], {id})
    decreases k
  {
    RunKeepsInv(states, events, k);
    if k > 0 {
      RunKeepsInv(states, events, k - 1);
      if !UpdatedAt(states, k - 1, id) {
        IntactBefore(states, events, k - 1, id);
        RunKeepsInStep(states, events, k - 1, id);
      }
      assert states[k - 1 + 1] == Step(states[k - 1], events[k - 1]);
      NextInStep(states[k - 1], events[k - 1], states[k], id);
    }
  }

  lemma NextInStep(s: Server, e: Event, t: Server, id: nat)
    requires t == Step(s, e) && Inv(s, {}) && Inv(t, {})
    requires Updates(s, t, id) || (Inv(s, {id}) && !LosesEdits(s, e, id))
    ensures Inv(t, {id})
  {
    if Updates(s, t, id) {
      UpdateHeals(s, e, id);
    } else {
      StepKeepsInStepIff(s, e, id);
    }
    InvSplits(t, id);
  }

  lemma IntactBefore(states: seq<Server>, events: seq<Event>, k: nat, id: nat)
    requires k < |events| && |states| == |events| + 1 && Intact(states, events, k + 1, id) && !UpdatedAt(states, k, id)
    ensures Intact(states, events, k, id) && !LosesEdits(states[k], events[k], id)
  {
  }

  /** A receiver is in step from its first state on exactly when no step loses its edits. */
  lemma InStepThroughoutIff(states: seq<Server>, events: seq<Event>, id: nat)
    requires IsRun(states, events)
    ensures (forall k: nat :: k < |states| ==> InStepOf(states[k], id)) <==>
            (forall i :: 0 <= i < |events| ==> !LosesEdits(states[i], events[i], id))
  {
    if forall i :: 0 <= i < |events| ==> !LosesEdits(states[i], events[i], id) {
      forall k: nat | k < |states| ensures InStepOf(states[k], id) {
        RunKeepsInStep(states, events, k, id);
        InvSplits(states[k], id);
      }
    }
    if forall k: nat :: k < |states| ==> InStepOf(states[k], id) {
      forall k | 0 <= k < |events| ensures !LosesEdits(states[k], events[k], id) {
        InStepStep(states, events, k, id);
      }
    }
  }

  lemma InStepStep(states: seq<Server>, events: seq<Event>, k: nat, id: nat)
    requires IsRun(states, events) && k < |events| && InStepOf(states[k], id) && InStepOf(states[k + 1], id)
    ensures !LosesEdits(states[k], events[k], id)
  {
    RunKeepsInv(states, events, k);
    InvSplits(states[k], id);
    StepKeepsInStepIff(states[k], events[k], id);
  }

  /** In every state reached with every loss healed, a synced receiver of an on-change subscription with no
      activation due holds a copy that the queued edits turn into exactly the selection of that moment. */
  lemma ReplicaFollowsSelection(states: seq<Server>, events: seq<Event>, k: nat, sid: nat, id: nat)
    requires IsRun(states, events) && k < |states| && Intact(states, events, k, id)
    requires Live(states[k], sid, id) && IsOnChange(Sub(states[k], sid, id))
    requires !Due(states[k].queues, sid, id) && !Replica(states[k].wire, id).Unsynced?
    ensures var s, sub, copy := states[k], Sub(states[k], sid, id), Replica(states[k].wire, id);
            && copy.Holding?
            && Patch(copy.forest, sub.pending) == Some(ForestOf(Selected(s, sub)))
            && (sub.pending == [] ==> copy.forest == ForestOf(Selected(s, sub)))
  {
    RunKeepsInStep(states, events, k, id);
    RunKeepsCurrent(states, events, k);
    var s, sub := states[k], Sub(states[k], sid, id);
    assert SubOk(sub, s.wire, s.queues, sid, id in {id}) && CurrentAt(s, sid, sub);
  }
}
