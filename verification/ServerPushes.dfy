/** When a push is sent, exactly: what the write callbacks, the timers and the announcements put on the wire. */
module ServerPushes {
  import opened Options
  import opened YangPush
  import opened ReplicaProofs
  import opened NetconfServer
  import opened ServerProofs
  import opened ServerRuns
  import opened ServerTheorems
  import opened ServerEnds
  import opened ServerQueues
  import opened ServerRequests

  // ---------------------------------------------------------------- conditions

  /** The first callback of the session pushes the whole selection of `id`: it resynchronises the subscription, or
      starts a new one that synchronises on start or is periodic without an anchor. */
  ghost predicate CallbackPushes(s: Server, sid: nat, id: nat, sub: Subscription) {
    && QueueOf(s, sid) != [] && QueueOf(s, sid)[0].id == id && sub.kind.Push? && !Over(s, sub)
    && match QueueOf(s, sid)[0]
       case ResyncUpdate(_) => true
       case ActivateNew(_) =>
         if sub.kind.trigger.OnChange? then sub.kind.trigger.syncOnStart else sub.kind.trigger.anchor.None?
       case _ => false
  }

  /** The update timer pushes when the update is due. */
  ghost predicate TimerPushes(s: Server, sub: Subscription) {
    sub.updateTimer.armed > 0 && !Over(s, sub) && s.now >= sub.nextUpdateAt
  }

  /** The change timer pushes unless the last push on the wire is more recent than the dampening period. */
  ghost predicate ChangePushes(s: Server, id: nat, sub: Subscription) {
    && sub.changeTimer.armed > 0 && !Over(s, sub) && sub.kind.Push? && sub.kind.trigger.OnChange?
    && var last := LastPushAt(s.wire, id);
    last.Some? ==> s.now - last.value >= sub.kind.trigger.dampening
  }

  // --------------------------------------------------------------- one outcome

  lemma DeliverPushesIff(sub: Subscription, selection: Selection, now: int, initial: bool, o: Outcome)
    requires o == Deliver(sub, selection, now, initial)
    ensures o.sent != [] <==>
            !Expired(sub, now) && sub.kind.Push? && initial
            && if sub.kind.trigger.OnChange? then sub.kind.trigger.syncOnStart else sub.kind.trigger.anchor.None?
  {
    if !Expired(sub, now) && IsPeriodic(sub) {
      DeliverPeriodicShape(ScheduleStop(sub, now).sub.value, selection, now, initial);
    }
  }

  lemma CallbackPushesIff(s: Server, sub: Subscription, c: Callback, o: Outcome)
    requires o == CallbackOutcome(s, sub, c)
    ensures o.sent != [] <==>
            sub.kind.Push? && !Over(s, sub)
            && (c.ResyncUpdate?
                || (c.ActivateNew? && if sub.kind.trigger.OnChange? then sub.kind.trigger.syncOnStart
                                      else sub.kind.trigger.anchor.None?))
  {
    DeliverPushesIff(sub, Selected(s, sub), s.now, true, Deliver(sub, Selected(s, sub), s.now, true));
    DeliverPushesIff(ClearTimers(sub), Selected(s, sub), s.now, false,
                     Deliver(ClearTimers(sub), Selected(s, sub), s.now, false));
  }

  lemma FireUpdatePushesIff(sub: Subscription, selection: Selection, now: int, o: Outcome)
    requires o == FireUpdate(sub, selection, now) && IsPeriodic(sub)
    ensures o.sent != [] <==> !Expired(sub, now) && now >= sub.nextUpdateAt
  {
  }

  lemma FireChangePushesIff(sub: Subscription, selection: Selection, now: int, o: Outcome)
    requires o == FireChange(sub, selection, now) && IsOnChange(sub) && sub.pending != []
    ensures o.sent != [] <==> !Expired(sub, now) && !Dampened(sub, now)
  {
  }

  // ------------------------------------------------------------------ by event

  /** The step puts one push of `id` on the wire, and nothing else. */
  ghost predicate PushesOne(s: Server, t: Server, id: nat) {
    exists m: Message :: t.wire == s.wire + [m] && m.id == id && !m.EventRecord?
  }

  lemma OutcomePushes(s: Server, id: nat, o: Outcome, t: Server)
    requires t.wire == s.wire + o.sent && (o.sent == [] || (|o.sent| == 1 && o.sent[0].id == id))
    requires o.sent != [] ==> !o.sent[0].EventRecord?
    ensures PushesOne(s, t, id) <==> o.sent != []
  {
    if o.sent != [] {
      assert o.sent == [o.sent[0]];
    } else {
      assert forall m: Message :: |s.wire + [m]| != |t.wire|;
    }
  }

  /** Messages of other subscriptions are no push of this one. */
  lemma OthersPushNothing(s: Server, id: nat, o: Outcome, t: Server)
    requires t.wire == s.wire + o.sent && (o.sent == [] || (|o.sent| == 1 && o.sent[0].id != id))
    ensures !PushesOne(s, t, id)
  {
    forall m: Message | t.wire == s.wire + [m] ensures m.id != id {
      assert (s.wire + [m])[|s.wire|] == m && |s.wire + o.sent| == |s.wire + [m]|;
      assert (s.wire + o.sent)[|s.wire|] == o.sent[0];
    }
  }

  /** A written reply is followed by a push exactly if the callback is one that pushes, for a subscription of that
      session that still lives. */
  lemma WriteDonePushesIff(s: Server, sid: nat, id: nat)
    requires Owned(s)
    ensures PushesOne(s, StepWriteDone(s, sid), id) <==>
            Live(s, sid, id) && CallbackPushes(s, sid, id, Sub(s, sid, id))
  {
    if HasCallback(s, sid) && Live(s, CallbackOwner(sid, s.queues[sid][0]), s.queues[sid][0].id) {
      var c := s.queues[sid][0];
      var owner := CallbackOwner(sid, c);
      var o := CallbackOutcome(s, Sub(s, owner, c.id), c);
      CallbackPushesIff(s, Sub(s, owner, c.id), c, o);
      CallbackSends(s, Sub(s, owner, c.id), c);
      if id == c.id {
        OutcomePushes(s, id, o, StepWriteDone(s, sid));
        assert c.Terminate? || owner == sid;
      } else {
        OthersPushNothing(s, id, o, StepWriteDone(s, sid));
      }
    } else {
      OthersPushNothing(s, id, Outcome(None, []), StepWriteDone(s, sid));
    }
  }

  lemma UpdateTimerPushesIff(s: Server, sid: nat, which: nat, id: nat)
    requires Owned(s) && SubsOk(s, {})
    ensures PushesOne(s, StepUpdateTimer(s, sid, which), id) <==>
            which == id && Live(s, sid, id) && TimerPushes(s, Sub(s, sid, id))
  {
    if Live(s, sid, which) && Sub(s, sid, which).updateTimer.armed > 0 {
      var sub := Sub(s, sid, which);
      assert SubOk(sub, s.wire, s.queues, sid, sid in {}) && sub.id == which;
      var o := FireUpdate(sub, Selected(s, sub), s.now);
      FireUpdatePushesIff(sub, Selected(s, sub), s.now, o);
      TickSends(sub.(updateTimer := Fired(sub.updateTimer)), Selected(s, sub), s.now);
      if id == which {
        OutcomePushes(s, id, o, StepUpdateTimer(s, sid, which));
      } else {
        OthersPushNothing(s, id, o, StepUpdateTimer(s, sid, which));
      }
    } else {
      OthersPushNothing(s, id, Outcome(None, []), StepUpdateTimer(s, sid, which));
    }
  }

  lemma ChangeTimerPushesIff(s: Server, sid: nat, which: nat, id: nat)
    requires Owned(s) && SubsOk(s, {})
    ensures PushesOne(s, StepChangeTimer(s, sid, which), id) <==>
            which == id && Live(s, sid, id) && ChangePushes(s, id, Sub(s, sid, id))
  {
    if Live(s, sid, which) && Sub(s, sid, which).changeTimer.armed > 0 {
      var sub := Sub(s, sid, which);
      assert SubOk(sub, s.wire, s.queues, sid, sid in {}) && sub.id == which;
      var o := FireChange(sub, Selected(s, sub), s.now);
      FireChangePushesIff(sub, Selected(s, sub), s.now, o);
      FireChangeSends(sub, Selected(s, sub), s.now);
      if id == which {
        OutcomePushes(s, id, o, StepChangeTimer(s, sid, which));
      } else {
        OthersPushNothing(s, id, o, StepChangeTimer(s, sid, which));
      }
    } else {
      OthersPushNothing(s, id, Outcome(None, []), StepChangeTimer(s, sid, which));
    }
  }

  /** The event pushes for `id`. */
  ghost predicate Pushes(s: Server, e: Event, id: nat) {
    match e
    case WriteDone(sid) => Live(s, sid, id) && CallbackPushes(s, sid, id, Sub(s, sid, id))
    case UpdateTimer(sid, b) => b == id && Live(s, sid, id) && TimerPushes(s, Sub(s, sid, id))
    case ChangeTimer(sid, b) => b == id && Live(s, sid, id) && ChangePushes(s, id, Sub(s, sid, id))
    case _ => false
  }

  lemma OtherEventsPushNothing(s: Server, e: Event, id: nat)
    requires Owned(s) && !e.WriteDone? && !e.UpdateTimer? && !e.ChangeTimer?
    ensures !PushesOne(s, Step(s, e), id)
  {
    StepSends(s, e);
    forall m: Message | Step(s, e).wire == s.wire + [m] ensures m.EventRecord? {
      assert (s.wire + [m])[|s.wire|..] == [m];
      assert Justified(s, e, Step(s, e).wire, m);
    }
  }

  lemma ReplyPushesIff(s: Server, e: Event, id: nat)
    requires Inv(s, {}) && e.WriteDone?
    ensures PushesOne(s, Step(s, e), id) <==> Pushes(s, e, id)
  {
    WriteDoneStep(s, e);
    WriteDonePushesIff(s, e.sid, id);
  }

  lemma UpdatePushesIff(s: Server, e: Event, id: nat)
    requires Inv(s, {}) && e.UpdateTimer?
    ensures PushesOne(s, Step(s, e), id) <==> Pushes(s, e, id)
  {
    TimerSteps(s, e);
    UpdateTimerPushesIff(s, e.sid, e.id, id);
  }

  lemma ChangesPushIff(s: Server, e: Event, id: nat)
    requires Inv(s, {}) && e.ChangeTimer?
    ensures PushesOne(s, Step(s, e), id) <==> Pushes(s, e, id)
  {
    TimerSteps(s, e);
    ChangeTimerPushesIff(s, e.sid, e.id, id);
  }

  /** A step pushes for a subscription, once and with nothing else on the wire, exactly when a callback that pushes
      runs, an update is due, or queued edits have waited out the dampening period. */
  lemma PushesIff(s: Server, e: Event, id: nat)
    requires Inv(s, {})
    ensures PushesOne(s, Step(s, e), id) <==> Pushes(s, e, id)
  {
    if e.WriteDone? {
      ReplyPushesIff(s, e, id);
    } else if e.UpdateTimer? {
      UpdatePushesIff(s, e, id);
    } else if e.ChangeTimer? {
      ChangesPushIff(s, e, id);
    } else {
      OtherEventsPushNothing(s, e, id);
    }
  }

  // --------------------------------------------------------------------- runs

  /** Step `k` of the run sends a push for `id`. */
  ghost predicate PushedAt(states: seq<Server>, events: seq<Event>, k: nat, id: nat)
    requires IsRun(states, events)
  {
    exists m: Message :: SentAt(states, events, k, m) && m.id == id && !m.EventRecord?
  }

  /** In every run a push is sent for a subscription exactly where it has to be. */
  lemma PushedIff(states: seq<Server>, events: seq<Event>, k: nat, id: nat)
    requires IsRun(states, events) && k < |events|
    ensures PushedAt(states, events, k, id) <==> Pushes(states[k], events[k], id)
  {
    RunKeepsInv(states, events, k);
    RunSends(states, events, k);
    PushesIff(states[k], events[k], id);
    SentIsOne(states[k], events[k], states[k + 1], id);
    assert forall m: Message :: SentAt(states, events, k, m) <==> m in states[k + 1].wire[|states[k].wire|..];
  }

  /** A push is the only message of its step. */
  lemma SentIsOne(s: Server, e: Event, t: Server, id: nat)
    requires SendsJustified(s, e, t.wire)
    ensures (exists m :: m in t.wire[|s.wire|..] && m.id == id && !m.EventRecord?) <==> PushesOne(s, t, id)
  {
    forall m | m in t.wire[|s.wire|..] && m.id == id && !m.EventRecord? ensures t.wire == s.wire + [m] {
      assert Justified(s, e, t.wire, m);
    }
    forall m: Message | t.wire == s.wire + [m] ensures m in t.wire[|s.wire|..] {
      assert t.wire[|s.wire|..] == [m];
    }
  }

  /** The callback pushes when it runs for this subscription. */
  ghost predicate Answers(c: Callback, id: nat, s: Server, sub: Subscription) {
    && c.id == id && sub.kind.Push? && !Over(s, sub)
    && (c.ResyncUpdate?
        || (c.ActivateNew? && if sub.kind.trigger.OnChange? then sub.kind.trigger.syncOnStart
                              else sub.kind.trigger.anchor.None?))
  }

  lemma CallbackAnswers(states: seq<Server>, events: seq<Event>, k: nat, sid: nat, id: nat, c: Callback)
    requires IsRun(states, events) && k < |events| && events[k] == WriteDone(sid)
    requires QueueOf(states[k], sid) != [] && QueueOf(states[k], sid)[0] == c
    requires Live(states[k], sid, id) && Answers(c, id, states[k], Sub(states[k], sid, id))
    ensures PushedAt(states, events, k, id)
  {
    PushedIff(states, events, k, id);
  }

  /** A callback put at the end of the queue is answered when its turn comes. */
  lemma AnsweredInTurn(states: seq<Server>, events: seq<Event>, m: nat, k: nat, sid: nat, q: seq<Callback>, c: Callback,
                       id: nat)
    requires IsRun(states, events) && m <= k < |events| && events[k] == WriteDone(sid)
    requires QueueOf(states[m], sid) == q + [c] && Written(events, m, k, sid) == |q|
    requires Live(states[k], sid, id) && Answers(c, id, states[k], Sub(states[k], sid, id))
    ensures PushedAt(states, events, k, id)
  {
    ComesUp(states, events, m, k, sid, q, c);
    CallbackAnswers(states, events, k, sid, id, c);
  }

  lemma ResyncWaits(states: seq<Server>, events: seq<Event>, j: nat, sid: nat, id: nat)
    requires IsRun(states, events) && j < |events| && events[j] == Resync(sid, id)
    requires Live(states[j], sid, id) && OnChangePush(Sub(states[j], sid, id))
    ensures QueueOf(states[j + 1], sid) == QueueOf(states[j], sid) + [ResyncUpdate(id)]
  {
  }

  /** A resync of an on-change subscription is answered: once its reply has been written, the whole selection goes
      out, if the subscription still lives, is a push and is not over. */
  lemma ResyncIsAnswered(states: seq<Server>, events: seq<Event>, j: nat, k: nat, sid: nat, id: nat)
    requires IsRun(states, events) && j < k < |events| && events[j] == Resync(sid, id)
    requires Live(states[j], sid, id) && OnChangePush(Sub(states[j], sid, id))
    requires events[k] == WriteDone(sid) && Written(events, j + 1, k, sid) == |QueueOf(states[j], sid)|
    requires Live(states[k], sid, id) && Answers(ResyncUpdate(id), id, states[k], Sub(states[k], sid, id))
    ensures PushedAt(states, events, k, id)
  {
    var q, m := QueueOf(states[j], sid), j + 1;
    ResyncWaits(states, events, j, sid, id);
    assert QueueOf(states[m], sid) == q + [ResyncUpdate(id)];
    AnsweredInTurn(states, events, m, k, sid, q, ResyncUpdate(id), id);
  }

  lemma StartWaits(states: seq<Server>, events: seq<Event>, j: nat, id: nat)
    requires IsRun(states, events) && j < |events| && Establishes(states[j], events[j], id)
    ensures QueueOf(states[j + 1], events[j].sid) == QueueOf(states[j], events[j].sid) + [ActivateNew(id)]
  {
  }

  /** A new subscription that synchronises on start, or is periodic without an anchor, gets its first push once the
      reply to its request has been written, if it still lives then and is not over. */
  lemma StartIsAnswered(states: seq<Server>, events: seq<Event>, j: nat, k: nat, id: nat)
    requires IsRun(states, events) && j < k < |events| && Establishes(states[j], events[j], id)
    requires var sid := events[j].sid;
             && events[k] == WriteDone(sid) && Written(events, j + 1, k, sid) == |QueueOf(states[j], sid)|
             && Live(states[k], sid, id) && Answers(ActivateNew(id), id, states[k], Sub(states[k], sid, id))
    ensures PushedAt(states, events, k, id)
  {
    var sid, m := events[j].sid, j + 1;
    var q := QueueOf(states[j], sid);
    StartWaits(states, events, j, id);
    assert QueueOf(states[m], sid) == q + [ActivateNew(id)];
    AnsweredInTurn(states, events, m, k, sid, q, ActivateNew(id), id);
  }
}
