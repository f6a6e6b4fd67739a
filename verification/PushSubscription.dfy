/** A dynamic subscription as the session updates it: one object whose fields change in place. Every method keeps
    the invariant of a live subscription over the messages it has sent itself, and says what its receiver then
    holds. */
module PushSubscriptions {
  import opened Options
  import opened SelectionDiff
  import opened YangPush
  import opened ReplicaProofs

  class PushSubscription {
    const id: nat
    var kind: Kind
    var stopTime: Option<int>
    var stopTimer: Timer
    var updateTimer: Timer
    var changeTimer: Timer
    var pending: seq<Edit>
    var observed: Option<Selection>
    var last: Option<Selection>
    var lastUpdateAt: Option<int>
    var patchId: nat
    var nextUpdateAt: int
    var live: bool           // still in the session's map
    var sent: seq<Message>   // written to the session's stream
    ghost var due: bool      // an activation is still to come
    ghost var inStep: bool   // no edits have been lost since the last push-update

    function View(): Subscription
      reads this
    {
      Subscription(id, kind, stopTime, stopTimer, updateTimer, changeTimer, pending, observed, last,
                   lastUpdateAt, patchId, nextUpdateAt)
    }

    /** The fields are as the outcome says, and its messages follow what was sent before. */
    ghost predicate Is(o: Outcome, before: seq<Message>)
      reads this
    {
      live == o.sub.Some? && (live ==> View() == o.sub.value) && sent == before + o.sent
    }

    /** Timers are owned, patch ids and times match what was sent, and the receiver is in step unless edits were
        lost. */
    ghost predicate Sound()
      reads this
    {
      TimersOwned(View()) && Numbered(View(), sent) && (inStep ==> InStep(View(), Replica(sent, id)))
    }

    /** A live subscription is sound, and no queued edit is without a timer or an activation to come. */
    ghost predicate Valid()
      reads this
    {
      live ==> Sound() && Awake(View(), due)
    }

    ghost predicate Synced()
      reads this
    {
      !Replica(sent, id).Unsynced?
    }

    /** The receiver's copy is the selection. */
    ghost predicate Holds(selection: Selection)
      reads this
    {
      Replica(sent, id) == Holding(ForestOf(selection))
    }

    constructor (id: nat, kind: Kind, stopTime: Option<int>)
      ensures live && sent == [] && View() == Establish(id, kind, stopTime) && Valid() && due && inStep && !Synced()
    {
      this.id, this.kind, this.stopTime := id, kind, stopTime;
      stopTimer, updateTimer, changeTimer := NoTimer(), NoTimer(), NoTimer();
      pending, observed, last := [], None, None;
      lastUpdateAt, patchId, nextUpdateAt := None, 0, 0;
      live, sent := true, [];
      due, inStep := true, true;
      new;
      EstablishKeeps(id, kind, stopTime, [], true);
    }

    /** Clears the timers; the queue goes too unless it is to be preserved. */
    method ClearDynamicTimers(preservePending: bool)
      modifies this`stopTimer, this`updateTimer, this`changeTimer, this`pending
      ensures View() == ClearTimers(old(View())).(pending := if preservePending then old(pending) else [])
    {
      stopTimer := Clear(stopTimer);
      updateTimer := Clear(updateTimer);
      changeTimer := Clear(changeTimer);
      if !preservePending {
        pending := [];
      }
    }

    method EndIfExpired(now: int) returns (expired: bool)
      requires live
      modifies this`stopTimer, this`updateTimer, this`changeTimer, this`pending, this`live
      ensures expired == Expired(old(View()), now) && live == !expired
      ensures !expired ==> View() == old(View())
    {
      expired := stopTime.Some? && now >= stopTime.value;
      if expired {
        ClearDynamicTimers(false);
        live := false;
      }
    }

    /** Queues what has changed; for a receiver in step the queue leads from what it holds to the selection. */
    method RecordChanges(selection: Selection) returns (changes: seq<Edit>)
      modifies this`pending, this`observed
      ensures View() == Record(old(View()), selection)
      ensures changes == Diff(Baseline(old(View()), selection), selection, [])
      ensures old(Sound()) ==> Sound()
      ensures old(Sound()) && inStep && Synced() ==>
                Patch(Replica(sent, id).forest, pending) == Some(ForestOf(selection))
    {
      ghost var before, sound := View(), Sound();
      var base := if observed.Some? then observed.value else if last.Some? then last.value else selection;
      changes := Diff(base, selection, []);
      pending := pending + changes;
      observed := Some(selection);
      if sound && inStep {
        RecordInStep(before, selection, Replica(sent, id));
      }
    }

    /** Afterwards no queued edit of an on-change subscription is without its one timer. */
    method ScheduleOnChangeUpdate(now: int)
      requires live
      modifies this`stopTimer, this`updateTimer, this`changeTimer, this`pending, this`live
      ensures Is(ScheduleOnChange(old(View()), now), old(sent))
      ensures old(Sound()) && IsOnChange(old(View())) ==>
                Valid() && (live && pending != [] ==> changeTimer == Timer(true, 1))
    {
      ghost var before, sound := View(), Sound();
      NothingSent(sent);
      if !changeTimer.held && pending != [] {
        var expired := EndIfExpired(now);
        if !expired {
          changeTimer := Arm(changeTimer);
        }
      }
      if sound && IsOnChange(before) {
        ScheduleOnChangeKeeps(before, now, sent, false, inStep);
      }
    }

    /** A whole selection is pushed before the stop time; then the receiver holds it, whatever was lost before. */
    method SendYangPushUpdate(selection: Selection, now: int)
      requires live
      modifies this
      ensures Is(SendUpdate(old(View()), selection, now), old(sent)) && due == old(due)
      ensures old(Sound()) ==> Valid()
      ensures if live && kind.Push? then inStep && Holds(selection) else sent == old(sent) && inStep == old(inStep)
    {
      ghost var before, wire, sound := View(), sent, Sound();
      NothingSent(sent);
      PushUpdateNow(selection, now);
      if live && kind.Push? {
        inStep := true;
        SendUpdateShape(before, selection, now);
        AfterUpdate(wire, PushUpdate(id, now, selection, IsOnChange(before)));
        if sound {
          SendUpdateKeeps(before, selection, now, wire, due, true);
        }
      }
    }

    method PushUpdateNow(selection: Selection, now: int)
      requires live
      modifies this
      ensures Is(SendUpdate(old(View()), selection, now), old(sent)) && unchanged(`due, `inStep)
    {
      NothingSent(sent);
      if !kind.Push? {
        return;
      }
      var expired := EndIfExpired(now);
      if !expired {
        PushSelection(selection, now);
      }
    }

    method PushSelection(selection: Selection, now: int)
      requires kind.Push?
      modifies this`changeTimer, this`pending, this`observed, this`last, this`lastUpdateAt, this`patchId, this`sent
      ensures sent == old(sent) + [PushUpdate(id, now, selection, IsOnChange(View()))]
      ensures View() == old(View()).(changeTimer := Clear(old(changeTimer)), pending := [], observed := Some(selection),
                                     last := Some(selection), lastUpdateAt := Some(now),
                                     patchId := if IsOnChange(View()) then 0 else old(patchId))
    {
      if kind.trigger.OnChange? {
        patchId := 0;
      }
      changeTimer := Clear(changeTimer);
      Restart(selection, now);
      observed := Some(selection);
      sent := sent + [PushUpdate(id, now, selection, kind.trigger.OnChange?)];
    }

    /** What every push does to its subscription: the queue is empty and `selection` the last one sent. */
    method Restart(selection: Selection, now: int)
      modifies this`pending, this`last, this`lastUpdateAt
      ensures pending == [] && last == Some(selection) && lastUpdateAt == Some(now)
    {
      pending := [];
      last := Some(selection);
      lastUpdateAt := Some(now);
    }

    /** The queue, extended to the current selection, is pushed; a synced receiver in step then holds that
        selection. */
    method SendYangPushChangeUpdate(selection: Selection, now: int)
      requires live
      modifies this
      ensures Is(SendChangeUpdate(old(View()), selection, now), old(sent)) && due == old(due) && inStep == old(inStep)
      ensures old(Sound() && IsOnChange(View()) && !changeTimer.held && pending != []) ==>
                Valid() && (live && inStep && old(Synced()) ==> Holds(selection))
    {
      ghost var before, wire, sound := View(), sent, Sound();
      PushQueue(selection, now);
      if sound && IsOnChange(before) && !before.changeTimer.held && before.pending != [] {
        SendChangeKeeps(before, selection, now, wire, due, inStep);
      }
    }

    method PushQueue(selection: Selection, now: int)
      requires live
      modifies this
      ensures Is(SendChangeUpdate(old(View()), selection, now), old(sent)) && due == old(due) && inStep == old(inStep)
    {
      NothingSent(sent);
      if !(kind.Push? && kind.trigger.OnChange?) {
        return;
      }
      changeTimer := Timer(false, changeTimer.armed);
      var expired := EndIfExpired(now);
      if expired {
        return;
      }
      RecordAndSend(selection, now);
    }

    method RecordAndSend(selection: Selection, now: int)
      modifies this`pending, this`observed, this`sent, this`patchId, this`last, this`lastUpdateAt
      ensures var o := Flush(old(View()), selection, now); o.sub == Some(View()) && sent == old(sent) + o.sent
    {
      ghost var before := View();
      NothingSent(sent);
      var _ := RecordChanges(selection);
      var edits := PatchEdits(View(), selection);
      FlushShape(before, View(), edits, selection, now);
      if edits != [] {
        SendEdits(edits, selection, now);
      }
    }

    method SendEdits(edits: seq<Edit>, selection: Selection, now: int)
      modifies this`sent, this`patchId, this`pending, this`last, this`lastUpdateAt
      ensures sent == old(sent) + [PushChangeUpdate(id, now, old(patchId), edits)]
      ensures View() == old(View()).(pending := [], last := Some(selection), lastUpdateAt := Some(now),
                                     patchId := (old(patchId) + 1) % PATCH_IDS)
    {
      sent := sent + [PushChangeUpdate(id, now, patchId, edits)];
      patchId := (patchId + 1) % PATCH_IDS;
      Restart(selection, now);
    }

    /** The change timer fires: within the dampening period it is armed again, otherwise the queue is pushed. */
    method OnChangeTimer(selection: Selection, now: int)
      requires live && Valid() && changeTimer.armed > 0
      modifies this
      ensures Is(FireChange(old(View()), selection, now), old(sent)) && due == old(due) && inStep == old(inStep)
      ensures Valid() && (live && sent != old(sent) && inStep && old(Synced()) ==> Holds(selection))
    {
      ghost var before, wire := View(), sent;
      NothingSent(sent);
      changeTimer := Fired(changeTimer);
      var expired := EndIfExpired(now);
      if expired {
        return;
      }
      if Dampened(View(), now) {
        ScheduleOnChangeUpdate(now);
      } else {
        SendYangPushChangeUpdate(selection, now);
      }
      FireChangeKeeps(before, selection, now, wire, due, inStep);
    }

    /** A datastore changed: nothing is sent, and what it changed is queued with a timer. */
    method NotifyYangPushChange(selection: Selection, now: int)
      requires live && Valid()
      modifies this
      ensures Is(Observe(old(View()), selection, now), old(sent)) && due == old(due) && inStep == old(inStep)
      ensures Valid() && sent == old(sent)
      ensures live && IsOnChange(View()) && inStep && Synced() ==>
                Patch(Replica(sent, id).forest, pending) == Some(ForestOf(selection))
    {
      ghost var before, wire := View(), sent;
      NothingSent(sent);
      if !(kind.Push? && kind.trigger.OnChange?) {
        return;
      }
      var expired := EndIfExpired(now);
      if expired {
        return;
      }
      var changes := RecordChanges(selection);
      if changes != [] {
        ScheduleOnChangeUpdate(now);
      }
      ObserveKeeps(before, selection, now, wire, due, inStep);
    }

    /** The stop timer is armed for a stop time still ahead; a stop time reached ends the subscription. */
    method ScheduleDynamicStop(now: int)
      requires live
      modifies this`stopTimer, this`updateTimer, this`changeTimer, this`pending, this`live
      ensures Is(ScheduleStop(old(View()), now), old(sent))
      ensures old(Valid() && !stopTimer.held) ==> Valid() && (live && stopTime.Some? ==> stopTimer == Timer(true, 1))
    {
      ghost var before, valid := View(), Valid();
      NothingSent(sent);
      if stopTime.Some? {
        var expired := EndIfExpired(now);
        if !expired {
          stopTimer := Arm(stopTimer);
        }
      }
      if valid && !before.stopTimer.held {
        ScheduleStopKeeps(before, now, sent, due, inStep);
      }
    }

    method SchedulePeriodicUpdate(selection: Selection, now: int)
      requires live
      modifies this
      ensures Is(Tick(old(View()), selection, now), old(sent)) && unchanged(`due, `inStep)
    {
      NothingSent(sent);
      if !(kind.Push? && kind.trigger.Periodic?) {
        return;
      }
      var expired := EndIfExpired(now);
      if expired {
        return;
      }
      if nextUpdateAt - now <= 0 {
        var next, period := nextUpdateAt, kind.trigger.period;
        PushUpdateNow(selection, now);
        nextUpdateAt := next + ((now - next) / period + 1) * period;
      }
      updateTimer := Arm(updateTimer);
    }

    /** The update timer fires: a due update is pushed once, the receiver then holds it, and the next one lies
        ahead. */
    method OnUpdateTimer(selection: Selection, now: int)
      requires live && Valid() && updateTimer.armed > 0
      modifies this
      ensures Is(FireUpdate(old(View()), selection, now), old(sent)) && due == old(due)
      ensures Valid() && inStep == (old(inStep) || sent != old(sent))
      ensures live ==> nextUpdateAt > now && (sent != old(sent) <==> old(nextUpdateAt) <= now)
      ensures live && sent != old(sent) ==> Holds(selection)
    {
      ghost var before, wire := View(), sent;
      updateTimer := Fired(updateTimer);
      SchedulePeriodicUpdate(selection, now);
      FireUpdateResult(before, selection, now, wire, due, inStep);
      inStep := inStep || FireUpdate(before, selection, now).sent != [];
    }

    /** The stop timer fires: it is armed again until the stop time has come, and then the subscription ends. */
    method OnStopTimer(now: int)
      requires live && Valid() && stopTimer.armed > 0
      modifies this`stopTimer, this`updateTimer, this`changeTimer, this`pending, this`live
      ensures Is(FireStop(old(View()), now), old(sent)) && Valid()
    {
      stopTimer := Fired(stopTimer);
      ScheduleDynamicStop(now);
    }

    /** The session starts delivery once its reply is written; afterwards no activation is to come. A pushed
        selection is what the receiver then holds; otherwise a receiver in step stays so unless a queue it needs
        is emptied. */
    method ScheduleDynamicDelivery(selection: Selection, now: int, initial: bool)
      requires live && Valid() && !updateTimer.held && !stopTimer.held
      modifies this
      ensures Is(Deliver(old(View()), selection, now, initial), old(sent))
      ensures Valid() && !due
      ensures live && sent != old(sent) ==> inStep && Holds(selection)
      ensures live && sent == old(sent) ==> inStep == (old(inStep) && !old(Loses(initial)))
    {
      ghost var before, wire, wasDue, kept := View(), sent, due, inStep && !Loses(initial);
      StartDelivery(selection, now, initial);
      DeliverResult(before, selection, now, initial, wire, wasDue, kept);
      due, inStep := false, kept || sent != wire;
    }

    /** Delivery would empty a queue that the receiver still needs. */
    ghost predicate Loses(initial: bool)
      reads this
    {
      DropsQueue(View(), initial) && Synced() && !QueueHasNoEffect(View())
    }

    method StartDelivery(selection: Selection, now: int, initial: bool)
      requires live
      modifies this
      ensures Is(Deliver(old(View()), selection, now, initial), old(sent)) && unchanged(`due, `inStep)
    {
      NothingSent(sent);
      var expired := EndIfExpired(now);
      if expired {
        return;
      }
      ScheduleDynamicStop(now);
      if !kind.Push? {
        return;
      }
      if kind.trigger.Periodic? {
        StartPeriodic(selection, now, initial);
        return;
      }
      if initial && kind.trigger.syncOnStart {
        PushUpdateNow(selection, now);
        return;
      }
      var _ := RecordChanges(selection);
      if last.None? {
        last := Some(selection);
      }
      ScheduleOnChangeUpdate(now);
    }

    method StartPeriodic(selection: Selection, now: int, initial: bool)
      requires live && kind.Push? && kind.trigger.Periodic? && !Expired(View(), now)
      modifies this
      ensures Is(DeliverPeriodic(old(View()), selection, now, initial), old(sent)) && unchanged(`due, `inStep)
    {
      pending := [];
      if initial && kind.trigger.anchor.None? {
        PushUpdateNow(selection, now);
      }
      var base := if initial && lastUpdateAt.Some? then lastUpdateAt.value else now;
      nextUpdateAt := FirstUpdateAt(kind.trigger, base, now);
      SchedulePeriodicUpdate(selection, now);
    }

    /** The modify RPC: timers are cleared, the queue survives, and an activation is to come. */
    method ModifySubscription(newKind: Kind, newStopTime: Option<int>)
      requires live && Valid()
      modifies this
      ensures live && sent == old(sent) && View() == Modify(old(View()), newKind, newStopTime)
      ensures Valid() && due && inStep == old(inStep) && pending == old(pending)
    {
      ghost var before := View();
      ClearDynamicTimers(true);
      kind := newKind;
      stopTime := newStopTime;
      ModifyKeeps(before, newKind, newStopTime, sent, due, inStep);
      due := true;
    }

    /** Delivery restarts once the reply to a modification is written. */
    method ActivateModified(selection: Selection, now: int)
      requires live && Valid() && due
      modifies this
      ensures Is(DeliverModified(old(View()), selection, now), old(sent))
      ensures Valid() && !due
      ensures live ==> sent == old(sent) && inStep == (old(inStep) && !old(Loses(false)))
    {
      ghost var before := View();
      ClearDynamicTimers(true);
      ModifyKeeps(before, kind, stopTime, sent, due, inStep);
      NothingPushed(View(), selection, now);
      ScheduleDynamicDelivery(selection, now, false);
    }
  }
}
