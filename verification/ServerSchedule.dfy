/** Periodic subscriptions in every run: their schedule stays on the grid it was started on. */
module ServerSchedule {
  import opened Options
  import opened YangPush
  import opened ReplicaProofs
  import opened PeriodicGrid
  import opened NetconfServer
  import opened ServerProofs
  import opened ServerSteps
  import opened ServerRuns

  /** The next update lies on the grid of the anchor, or on that of the base if there is no anchor. */
  ghost predicate OnSchedule(sub: Subscription, base: int)
    requires IsPeriodic(sub)
  {
    var t := sub.kind.trigger;
    OnGrid(sub.nextUpdateAt, if t.anchor.Some? then t.anchor.value else base, t.period)
  }

  lemma ActivationOnSchedule(sub: Subscription, selection: Selection, now: int, initial: bool)
    ensures var o := Deliver(sub, selection, now, initial);
            o.sub.Some? && IsPeriodic(o.sub.value) ==> OnSchedule(o.sub.value, now)
  {
    if !Expired(sub, now) && IsPeriodic(sub) {
      DeliverPeriodicShape(ScheduleStop(sub, now).sub.value, selection, now, initial);
      FirstUpdateOnGrid(sub.kind.trigger, now, now);
    }
  }

  lemma OnItsOwnGrid(t: int, period: Period)
    ensures OnGrid(t, t, period)
  {
    assert t == GridPoint(t, period, 0);
  }

  /** An activation starts the grid; any other turn of a periodic subscription stays on it. */
  lemma TurnOnGrid(sub: Subscription, selection: Selection, now: int, turn: Turn)
    ensures var o := TakeTurn(sub, selection, now, turn);
            o.sub.Some? && IsPeriodic(o.sub.value) ==>
              if turn.Activation? then OnSchedule(o.sub.value, now)
              else o.sub.value.kind == sub.kind
                   && OnGrid(o.sub.value.nextUpdateAt, sub.nextUpdateAt, sub.kind.trigger.period)
  {
    match turn
    case Activation(initial) =>
      ActivationOnSchedule(if initial then sub else ClearTimers(sub), selection, now, initial);
    case UpdateFires =>
      if IsPeriodic(sub) && !Expired(sub, now) {
        TickOnGrid(sub, selection, now);
      }
    case _ =>
      if IsPeriodic(sub) {
        OnItsOwnGrid(sub.nextUpdateAt, sub.kind.trigger.period);
      }
  }

  lemma StaysOnSchedule(before: Subscription, after: Subscription, base: int)
    requires IsPeriodic(before) && OnSchedule(before, base) && after.kind == before.kind
    requires OnGrid(after.nextUpdateAt, before.nextUpdateAt, before.kind.trigger.period)
    ensures OnSchedule(after, base)
  {
    var t := before.kind.trigger;
    var start := if t.anchor.Some? then t.anchor.value else base;
    OnGridTransitive(after.nextUpdateAt, before.nextUpdateAt, start, t.period);
  }

  /** Step `j` runs the activation callback of the subscription. */
  ghost predicate ActivatedAt(states: seq<Server>, events: seq<Event>, j: nat, sid: nat, id: nat) {
    && j < |events| && j < |states| && Live(states[j], sid, id)
    && TurnOf(states[j], events[j], sid, id).Some? && TurnOf(states[j], events[j], sid, id).value.Activation?
  }

  /** The schedule goes back to an activation before state `k`. */
  ghost predicate Scheduled(states: seq<Server>, events: seq<Event>, k: nat, sub: Subscription, sid: nat, id: nat)
    requires IsPeriodic(sub)
  {
    exists j: nat :: j < k && ActivatedAt(states, events, j, sid, id) && OnSchedule(sub, states[j].now)
  }

  ghost predicate Waits(s: Server, sid: nat, id: nat)
    requires Live(s, sid, id)
  {
    Due(s.queues, sid, id) || !IsPeriodic(Sub(s, sid, id))
  }

  /** What becomes of a periodic subscription: it has just been activated, or was on schedule before and moved
      along its grid. */
  lemma BecameScheduled(s: Server, e: Event, t: Server, sid: nat, id: nat)
    requires Live(t, sid, id) && Became(s, e, t, sid, id) && !Waits(t, sid, id)
    ensures Live(s, sid, id)
    ensures || (TurnOf(s, e, sid, id).Some? && TurnOf(s, e, sid, id).value.Activation?
                && OnSchedule(Sub(t, sid, id), s.now))
            || (!Waits(s, sid, id) && Sub(t, sid, id).kind == Sub(s, sid, id).kind
                && OnGrid(Sub(t, sid, id).nextUpdateAt, Sub(s, sid, id).nextUpdateAt,
                          Sub(s, sid, id).kind.trigger.period))
  {
    var sub := Sub(s, sid, id);
    if Ran(s, e, t, sid, id) {
      TurnOnGrid(sub, Selected(s, sub), s.now, TurnOf(s, e, sid, id).value);
    } else {
      LookedOrStayed(s, t, sid, id);
    }
  }

  lemma LookedOrStayed(s: Server, t: Server, sid: nat, id: nat)
    requires Live(s, sid, id) && Live(t, sid, id) && (Stayed(s, t, sid, id) || Looked(s, t, sid, id))
             && !Waits(t, sid, id)
    ensures !Waits(s, sid, id) && Sub(t, sid, id) == Sub(s, sid, id)
    ensures OnGrid(Sub(t, sid, id).nextUpdateAt, Sub(s, sid, id).nextUpdateAt, Sub(s, sid, id).kind.trigger.period)
  {
    var sub := Sub(s, sid, id);
    ObserveKeepsKind(sub, Selected(t, sub), s.now);
    OnItsOwnGrid(sub.nextUpdateAt, sub.kind.trigger.period);
  }

  lemma ObserveKeepsKind(sub: Subscription, selection: Selection, now: int)
    ensures var o := Observe(sub, selection, now);
            o.sub.Some? ==> o.sub.value.kind == sub.kind && (!IsOnChange(sub) ==> o.sub.value == sub)
  {
  }

  ghost predicate AllScheduled(states: seq<Server>, events: seq<Event>, k: nat)
    requires k < |states|
  {
    forall sid: nat, id: nat :: Live(states[k], sid, id) && !Waits(states[k], sid, id) ==>
      Scheduled(states, events, k, Sub(states[k], sid, id), sid, id)
  }

  lemma NextScheduled(states: seq<Server>, events: seq<Event>, k: nat, sid: nat, id: nat)
    requires k < |events| && |states| == |events| + 1 && AllScheduled(states, events, k)
    requires Live(states[k + 1], sid, id) && Became(states[k], events[k], states[k + 1], sid, id)
             && !Waits(states[k + 1], sid, id)
    ensures Scheduled(states, events, k + 1, Sub(states[k + 1], sid, id), sid, id)
  {
    var s, t := states[k], states[k + 1];
    BecameScheduled(s, events[k], t, sid, id);
    if TurnOf(s, events[k], sid, id).Some? && TurnOf(s, events[k], sid, id).value.Activation?
        && OnSchedule(Sub(t, sid, id), s.now) {
      assert ActivatedAt(states, events, k, sid, id);
    } else {
      assert Scheduled(states, events, k, Sub(s, sid, id), sid, id);
      var j: nat :| j < k && ActivatedAt(states, events, j, sid, id) && OnSchedule(Sub(s, sid, id), states[j].now);
      StaysOnSchedule(Sub(s, sid, id), Sub(t, sid, id), states[j].now);
    }
  }

  lemma StepBecame(states: seq<Server>, events: seq<Event>, k: nat, sid: nat, id: nat)
    requires IsRun(states, events) && k < |events| && Live(states[k + 1], sid, id)
    ensures Became(states[k], events[k], states[k + 1], sid, id)
  {
    RunKeepsInv(states, events, k);
    StepBecomes(states[k], events[k], states[k + 1], sid, id);
  }

  lemma StepScheduled(states: seq<Server>, events: seq<Event>, k: nat)
    requires IsRun(states, events) && k < |events| && AllScheduled(states, events, k)
    ensures AllScheduled(states, events, k + 1)
  {
    var t := states[k + 1];
    forall sid: nat, id: nat | Live(t, sid, id) && !Waits(t, sid, id)
      ensures Scheduled(states, events, k + 1, Sub(states[k + 1], sid, id), sid, id)
    {
      StepBecame(states, events, k, sid, id);
      NextScheduled(states, events, k, sid, id);
    }
  }

  lemma {:induction false} RunKeepsSchedule(states: seq<Server>, events: seq<Event>, k: nat)
    requires IsRun(states, events) && k < |states|
    ensures AllScheduled(states, events, k)
    decreases k
  {
    if k > 0 {
      RunKeepsSchedule(states, events, k - 1);
      StepScheduled(states, events, k - 1);
    }
  }

  /** In every state of every run, the next update of a live periodic subscription with no activation due lies on
      the grid of its anchor, or without one on the grid that starts when it was activated. */
  lemma ScheduleOnGrid(states: seq<Server>, events: seq<Event>, k: nat, sid: nat, id: nat)
    requires IsRun(states, events) && k < |states|
    requires Live(states[k], sid, id) && IsPeriodic(Sub(states[k], sid, id)) && !Due(states[k].queues, sid, id)
    ensures var sub := Sub(states[k], sid, id);
            var t := sub.kind.trigger;
            exists j: nat :: j < k && ActivatedAt(states, events, j, sid, id)
              && OnGrid(sub.nextUpdateAt, if t.anchor.Some? then t.anchor.value else states[j].now, t.period)
  {
    RunKeepsSchedule(states, events, k);
    assert !Waits(states[k], sid, id);
    assert Scheduled(states, events, k, Sub(states[k], sid, id), sid, id);
  }

  // ------------------------------------------------------- one push per interval

  /** Between activations the next update of a periodic subscription never moves back. */
  lemma TurnMovesOn(sub: Subscription, selection: Selection, now: int, turn: Turn)
    requires IsPeriodic(sub) && !turn.Activation?
    ensures var o := TakeTurn(sub, selection, now, turn); o.sub.Some? ==> o.sub.value.nextUpdateAt >= sub.nextUpdateAt
  {
    if turn.UpdateFires? && !Expired(sub, now) {
      TickOnGrid(sub, selection, now);
    }
  }

  lemma ActivationWasDue(s: Server, e: Event, sid: nat, id: nat)
    requires Live(s, sid, id) && TurnOf(s, e, sid, id).Some? && TurnOf(s, e, sid, id).value.Activation?
    ensures Due(s.queues, sid, id)
  {
  }

  /** The subscription has kept its kind and moved along its grid. */
  ghost predicate Along(before: Subscription, after: Subscription) {
    && IsPeriodic(before) && after.kind == before.kind && after.nextUpdateAt >= before.nextUpdateAt
    && OnGrid(after.nextUpdateAt, before.nextUpdateAt, before.kind.trigger.period)
  }

  lemma AlongTwice(a: Subscription, b: Subscription, c: Subscription)
    requires Along(a, b) && Along(b, c)
    ensures Along(a, c)
  {
    OnGridTransitive(c.nextUpdateAt, b.nextUpdateAt, a.nextUpdateAt, a.kind.trigger.period);
  }

  lemma AlongItself(sub: Subscription)
    requires IsPeriodic(sub)
    ensures Along(sub, sub)
  {
    OnItsOwnGrid(sub.nextUpdateAt, sub.kind.trigger.period);
  }

  /** An active periodic subscription that stays one moves along its grid. */
  lemma MovesOn(s: Server, e: Event, t: Server, sid: nat, id: nat)
    requires Live(s, sid, id) && Live(t, sid, id) && Became(s, e, t, sid, id)
    requires !Waits(s, sid, id) && !Waits(t, sid, id)
    ensures Along(Sub(s, sid, id), Sub(t, sid, id))
  {
    BecameScheduled(s, e, t, sid, id);
    if TurnOf(s, e, sid, id).Some? && TurnOf(s, e, sid, id).value.Activation? {
      ActivationWasDue(s, e, sid, id);
    } else if Ran(s, e, t, sid, id) {
      TurnMovesOn(Sub(s, sid, id), Selected(s, Sub(s, sid, id)), s.now, TurnOf(s, e, sid, id).value);
    } else {
      LookedOrStayed(s, t, sid, id);
    }
  }

  /** From state `i` to state `j` the subscription is live and periodic, with no activation due. */
  ghost predicate Steady(states: seq<Server>, i: nat, j: nat, sid: nat, id: nat) {
    j < |states| && forall l: nat :: i <= l <= j ==> Live(states[l], sid, id) && !Waits(states[l], sid, id)
  }

  lemma SteadyAt(states: seq<Server>, i: nat, j: nat, l: nat, sid: nat, id: nat)
    requires Steady(states, i, j, sid, id) && i <= l <= j
    ensures Live(states[l], sid, id) && !Waits(states[l], sid, id) && IsPeriodic(Sub(states[l], sid, id))
  {
  }

  lemma SteadyStep(states: seq<Server>, events: seq<Event>, i: nat, j: nat, k: nat, sid: nat, id: nat)
    requires IsRun(states, events) && Steady(states, i, j, sid, id) && i <= k < j
    ensures Live(states[k], sid, id) && Live(states[k + 1], sid, id)
    ensures Along(Sub(states[k], sid, id), Sub(states[k + 1], sid, id))
  {
    SteadyAt(states, i, j, k, sid, id);
    SteadyAt(states, i, j, k + 1, sid, id);
    StepBecame(states, events, k, sid, id);
    MovesOn(states[k], events[k], states[k + 1], sid, id);
  }

  lemma {:induction false} SteadyMovesOn(states: seq<Server>, events: seq<Event>, i: nat, j: nat, sid: nat, id: nat)
    requires IsRun(states, events) && i <= j && Steady(states, i, j, sid, id)
    ensures Live(states[i], sid, id) && Live(states[j], sid, id)
    ensures Along(Sub(states[i], sid, id), Sub(states[j], sid, id))
    decreases j - i
  {
    SteadyAt(states, i, j, i, sid, id);
    SteadyAt(states, i, j, j, sid, id);
    if i == j {
      AlongItself(Sub(states[i], sid, id));
    } else {
      SteadyStep(states, events, i, j, i, sid, id);
      SteadyMovesOn(states, events, i + 1, j, sid, id);
      AlongTwice(Sub(states[i], sid, id), Sub(states[i + 1], sid, id), Sub(states[j], sid, id));
    }
  }

  /** The step is the update timer of the subscription, and pushes. */
  ghost predicate TickPushes(s: Server, e: Event, t: Server, sid: nat, id: nat) {
    && Live(s, sid, id) && IsPeriodic(Sub(s, sid, id)) && TurnOf(s, e, sid, id) == Some(UpdateFires)
    && t.wire != s.wire
  }

  /** A tick that pushes was due, and leaves the next one ahead. */
  lemma PushingTick(s: Server, e: Event, t: Server, sid: nat, id: nat)
    requires TickPushes(s, e, t, sid, id) && Live(t, sid, id) && Ran(s, e, t, sid, id)
    ensures Sub(s, sid, id).nextUpdateAt <= s.now < Sub(t, sid, id).nextUpdateAt
  {
    var sub := Sub(s, sid, id);
    assert s.wire + [] == s.wire;
    if !Expired(sub, s.now) {
      TickOnGrid(sub, Selected(s, sub), s.now);
    }
  }

  lemma TickRan(s: Server, e: Event, t: Server, sid: nat, id: nat)
    requires TickPushes(s, e, t, sid, id) && Live(t, sid, id) && t == Step(s, e)
    ensures Ran(s, e, t, sid, id)
  {
  }

  lemma StepPushes(states: seq<Server>, events: seq<Event>, k: nat, sid: nat, id: nat)
    requires IsRun(states, events) && k < |events| && TickPushes(states[k], events[k], states[k + 1], sid, id)
    requires Live(states[k + 1], sid, id)
    ensures Sub(states[k], sid, id).nextUpdateAt <= states[k].now < Sub(states[k + 1], sid, id).nextUpdateAt
  {
    assert states[k + 1] == Step(states[k], events[k]);
    TickRan(states[k], events[k], states[k + 1], sid, id);
    PushingTick(states[k], events[k], states[k + 1], sid, id);
  }

  /** In every run, two scheduled pushes of a periodic subscription that is not modified in between fall into
      different intervals of its grid, the later one into a later interval. */
  lemma OnePushPerInterval(states: seq<Server>, events: seq<Event>, i: nat, j: nat, sid: nat, id: nat)
    requires IsRun(states, events) && i < j < |events| && Steady(states, i, j + 1, sid, id)
    requires TickPushes(states[i], events[i], states[i + 1], sid, id)
    requires TickPushes(states[j], events[j], states[j + 1], sid, id)
    ensures var t := Sub(states[i], sid, id).kind.trigger;
            exists a: nat :: a < i && ActivatedAt(states, events, a, sid, id)
              && var base := if t.anchor.Some? then t.anchor.value else states[a].now;
                 Cell(states[i].now, base, t.period) < Cell(states[j].now, base, t.period)
  {
    assert Live(states[i], sid, id) && !Waits(states[i], sid, id) && Live(states[i + 1], sid, id);
    assert Live(states[j], sid, id) && Live(states[j + 1], sid, id);
    var t := Sub(states[i], sid, id).kind.trigger;
    RunKeepsSchedule(states, events, i);
    assert Scheduled(states, events, i, Sub(states[i], sid, id), sid, id);
    var a: nat :| a < i && ActivatedAt(states, events, a, sid, id)
                  && OnSchedule(Sub(states[i], sid, id), states[a].now);
    var base := if t.anchor.Some? then t.anchor.value else states[a].now;
    SteadyMovesOn(states, events, i, j, sid, id);
    SteadyMovesOn(states, events, i + 1, j, sid, id);
    StepPushes(states, events, i, sid, id);
    StepPushes(states, events, j, sid, id);
    OnGridTransitive(Sub(states[j], sid, id).nextUpdateAt, Sub(states[i], sid, id).nextUpdateAt, base, t.period);
    CellsSeparated(states[i].now, states[j].now, Sub(states[j], sid, id).nextUpdateAt, base, t.period);
  }
}
