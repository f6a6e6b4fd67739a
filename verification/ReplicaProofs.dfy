/** A receiver that rebuilds a selection from push messages alone, and what every step of a subscription keeps
    true of it, of the patch ids and of the timers. */
module ReplicaProofs {
  import opened Options
  import opened SelectionDiff
  import opened YangPush

  // ------------------------------------------------------------- receiver

  /** A receiver's copy: nothing yet, a forest, or broken by a patch it had to refuse. */
  datatype Copy = Unsynced | Holding(forest: Forest) | Broken

  /** Replaces the copy on push-update, applies the edits of push-change-update in order. */
  ghost function Replica(wire: seq<Message>, id: nat): Copy
    decreases |wire|
  {
    if wire == [] then Unsynced
    else
      var before, m := Replica(wire[..|wire| - 1], id), wire[|wire| - 1];
      if m.id != id then before
      else
        match m
        case PushUpdate(_, _, contents, _) => Holding(ForestOf(contents))
        case PushChangeUpdate(_, _, _, edits) => ApplyPatch(before, edits)
        case EventRecord(_, _) => before
  }

  ghost function ApplyPatch(copy: Copy, edits: seq<Edit>): Copy {
    if !copy.Holding? then copy
    else
      match Patch(copy.forest, edits)
      case None => Broken
      case Some(f) => Holding(f)
  }

  /** Push-change-updates since the last push-update sent while on-change, or since the beginning. */
  function ChangesSinceSync(wire: seq<Message>, id: nat): nat
    decreases |wire|
  {
    if wire == [] then 0
    else
      var before, m := ChangesSinceSync(wire[..|wire| - 1], id), wire[|wire| - 1];
      if m.id != id then before
      else if m.PushChangeUpdate? then before + 1
      else if m.PushUpdate? && m.onChange then 0
      else before
  }

  function LastPushAt(wire: seq<Message>, id: nat): Option<int>
    decreases |wire|
  {
    if wire == [] then None
    else
      var m := wire[|wire| - 1];
      if m.id == id && !m.EventRecord? then Some(m.at) else LastPushAt(wire[..|wire| - 1], id)
  }

  lemma {:induction false} OthersUnaffected(wire: seq<Message>, sent: seq<Message>, id: nat)
    requires forall m :: m in sent ==> m.id != id || m.EventRecord?
    ensures Replica(wire + sent, id) == Replica(wire, id)
    ensures ChangesSinceSync(wire + sent, id) == ChangesSinceSync(wire, id)
    ensures LastPushAt(wire + sent, id) == LastPushAt(wire, id)
    decreases |sent|
  {
    if sent == [] {
      assert wire + sent == wire;
    } else {
      var init := sent[..|sent| - 1];
      assert (wire + sent)[..|wire + sent| - 1] == wire + init;
      assert sent[|sent| - 1] in sent;
      OthersUnaffected(wire, init, id);
    }
  }

  lemma AppendOne(wire: seq<Message>, m: Message)
    ensures (wire + [m])[..|wire + [m]| - 1] == wire
  {
  }

  lemma AfterChange(wire: seq<Message>, m: Message)
    requires m.PushChangeUpdate?
    ensures Replica(wire + [m], m.id) == ApplyPatch(Replica(wire, m.id), m.edits)
    ensures ChangesSinceSync(wire + [m], m.id) == ChangesSinceSync(wire, m.id) + 1
    ensures LastPushAt(wire + [m], m.id) == Some(m.at)
  {
    AppendOne(wire, m);
  }

  lemma AfterUpdate(wire: seq<Message>, m: Message)
    requires m.PushUpdate?
    ensures Replica(wire + [m], m.id) == Holding(ForestOf(m.contents))
    ensures ChangesSinceSync(wire + [m], m.id) == if m.onChange then 0 else ChangesSinceSync(wire, m.id)
    ensures LastPushAt(wire + [m], m.id) == Some(m.at)
  {
    AppendOne(wire, m);
  }

  // ------------------------------------------------- subscription invariant

  /** At most one armed timer of each kind, and its handle is held. */
  ghost predicate TimersOwned(sub: Subscription) {
    && sub.stopTimer.armed == (if sub.stopTimer.held then 1 else 0)
    && sub.updateTimer.armed == (if sub.updateTimer.held then 1 else 0)
    && sub.changeTimer.armed == (if sub.changeTimer.held then 1 else 0)
    && (sub.changeTimer.held ==> IsOnChange(sub) && sub.pending != [])
    && (sub.updateTimer.held ==> IsPeriodic(sub))
  }

  /** No lost wakeup: queued edits have an armed change timer unless activation is still due. */
  ghost predicate Awake(sub: Subscription, due: bool) {
    IsOnChange(sub) && sub.pending != [] ==> sub.changeTimer.armed == 1 || due
  }

  /** The receiver, once synced, holds the last selection, and the queue leads on to the observed one. */
  ghost predicate InStep(sub: Subscription, copy: Copy) {
    copy.Unsynced? ||
    (sub.last.Some? && sub.observed.Some?
     && copy == Holding(ForestOf(sub.last.value))
     && Patch(ForestOf(sub.last.value), sub.pending) == Some(ForestOf(sub.observed.value)))
  }

  ghost predicate Numbered(sub: Subscription, wire: seq<Message>) {
    && sub.patchId == ChangesSinceSync(wire, sub.id) % PATCH_IDS
    && sub.lastUpdateAt == LastPushAt(wire, sub.id)
  }

  /** The invariant of a live subscription. `due` says that an activation callback is still to run; the claim
      about the receiver is included when `replica` is set. */
  ghost predicate SubInv(sub: Subscription, wire: seq<Message>, due: bool, replica: bool) {
    TimersOwned(sub) && Awake(sub, due) && Numbered(sub, wire) && (replica ==> InStep(sub, Replica(wire, sub.id)))
  }

  /** What a step of one subscription must achieve. */
  ghost predicate Keeps(o: Outcome, id: nat, now: int, wire: seq<Message>, due: bool, replica: bool) {
    && (forall m :: m in o.sent ==> m.id == id && m.at == now)
    && (o.sub.Some? ==> o.sub.value.id == id && SubInv(o.sub.value, wire + o.sent, due, replica))
  }

  // ------------------------------------------------------------------ steps

  /** Recording keeps the queue leading from the last selection to the observed one. */
  lemma RecordInStep(sub: Subscription, selection: Selection, copy: Copy)
    requires InStep(sub, copy)
    ensures InStep(Record(sub, selection), copy)
    ensures !copy.Unsynced? ==>
              Patch(ForestOf(sub.last.value), Record(sub, selection).pending) == Some(ForestOf(selection))
  {
    if !copy.Unsynced? {
      var edits := Diff(sub.observed.value, selection, []);
      PatchAppend(ForestOf(sub.last.value), sub.pending, edits);
      DiffThenPatch(sub.observed.value, selection, edits);
    }
  }

  lemma NothingSent(wire: seq<Message>)
    ensures wire + [] == wire
  {
  }

  lemma SendUpdateKeeps(sub: Subscription, selection: Selection, now: int, wire: seq<Message>, due: bool, replica: bool)
    requires TimersOwned(sub) && Numbered(sub, wire) && sub.kind.Push?
    ensures Keeps(SendUpdate(sub, selection, now), sub.id, now, wire, due, replica)
    ensures var o := SendUpdate(sub, selection, now);
            o.sub.Some? ==> Replica(wire + o.sent, sub.id) == Holding(ForestOf(selection))
  {
    if !Expired(sub, now) {
      SendUpdateShape(sub, selection, now);
      AfterUpdate(wire, PushUpdate(sub.id, now, selection, IsOnChange(sub)));
      InStepAfresh(SendUpdate(sub, selection, now).sub.value, selection);
    }
  }

  lemma SendUpdateShape(sub: Subscription, selection: Selection, now: int)
    requires sub.kind.Push? && !Expired(sub, now)
    ensures var o := SendUpdate(sub, selection, now);
            && o.sent == [PushUpdate(sub.id, now, selection, IsOnChange(sub))]
            && o.sub == Some(sub.(changeTimer := Clear(sub.changeTimer), pending := [], observed := Some(selection),
                                  last := Some(selection), lastUpdateAt := Some(now),
                                  patchId := if IsOnChange(sub) then 0 else sub.patchId))
  {
  }

  lemma ScheduleOnChangeKeeps(sub: Subscription, now: int, wire: seq<Message>, due: bool, replica: bool)
    requires TimersOwned(sub) && Numbered(sub, wire) && IsOnChange(sub)
    requires replica ==> InStep(sub, Replica(wire, sub.id))
    ensures Keeps(ScheduleOnChange(sub, now), sub.id, now, wire, due, replica)
  {
    NothingSent(wire);
  }

  /** With edits queued, a push-change-update carries the queue extended to the current selection. */
  lemma SendChangeShape(sub: Subscription, selection: Selection, now: int)
    requires sub.pending != [] && IsOnChange(sub) && !Expired(sub, now)
    ensures var o, recorded := SendChangeUpdate(sub, selection, now), Record(sub, selection);
            && o.sent == [PushChangeUpdate(sub.id, now, sub.patchId, recorded.pending)]
            && o.sub == Some(sub.(changeTimer := Timer(false, sub.changeTimer.armed), pending := [],
                                  observed := Some(selection), last := Some(selection), lastUpdateAt := Some(now),
                                  patchId := (sub.patchId + 1) % PATCH_IDS))
  {
  }

  lemma FlushShape(sub: Subscription, recorded: Subscription, edits: seq<Edit>, selection: Selection, now: int)
    requires recorded == Record(sub, selection) && edits == PatchEdits(recorded, selection)
    ensures Flush(sub, selection, now)
            == if edits == [] then Outcome(Some(recorded), [])
               else Outcome(Some(recorded.(pending := [], last := Some(selection), lastUpdateAt := Some(now),
                                           patchId := (recorded.patchId + 1) % PATCH_IDS)),
                            [PushChangeUpdate(recorded.id, now, recorded.patchId, edits)])
  {
  }

  lemma NextPatchId(count: nat)
    ensures (count % PATCH_IDS + 1) % PATCH_IDS == (count + 1) % PATCH_IDS
  {
  }

  lemma PatchedCopy(sub: Subscription, selection: Selection, copy: Copy)
    requires InStep(sub, copy)
    ensures ApplyPatch(copy, Record(sub, selection).pending) ==
            if copy.Unsynced? then Unsynced else Holding(ForestOf(selection))
  {
    RecordInStep(sub, selection, copy);
  }

  lemma InStepAfresh(sub: Subscription, selection: Selection)
    requires sub.pending == [] && sub.last == Some(selection) && sub.observed == Some(selection)
    ensures InStep(sub, Holding(ForestOf(selection)))
  {
  }

  lemma SendChangeKeeps(sub: Subscription, selection: Selection, now: int, wire: seq<Message>, due: bool, replica: bool)
    requires TimersOwned(sub) && !sub.changeTimer.held && sub.pending != [] && IsOnChange(sub)
    requires Numbered(sub, wire) && (replica ==> InStep(sub, Replica(wire, sub.id)))
    ensures Keeps(SendChangeUpdate(sub, selection, now), sub.id, now, wire, due, replica)
    ensures var o := SendChangeUpdate(sub, selection, now);
            o.sub.Some? && replica && !Replica(wire, sub.id).Unsynced? ==>
              Replica(wire + o.sent, sub.id) == Holding(ForestOf(selection))
  {
    if !Expired(sub, now) {
      SendChangeShape(sub, selection, now);
      var o := SendChangeUpdate(sub, selection, now);
      ChangeSent(sub, selection, now, wire, due, replica, o.sub.value, o.sent[0]);
    }
  }

  lemma ChangeSent(sub: Subscription, selection: Selection, now: int, wire: seq<Message>, due: bool, replica: bool,
                   after: Subscription, m: Message)
    requires TimersOwned(sub) && !sub.changeTimer.held && IsOnChange(sub) && Numbered(sub, wire)
    requires replica ==> InStep(sub, Replica(wire, sub.id))
    requires m == PushChangeUpdate(sub.id, now, sub.patchId, Record(sub, selection).pending)
    requires after == sub.(changeTimer := Timer(false, sub.changeTimer.armed), pending := [],
                           observed := Some(selection), last := Some(selection), lastUpdateAt := Some(now),
                           patchId := (sub.patchId + 1) % PATCH_IDS)
    ensures SubInv(after, wire + [m], due, replica)
    ensures replica && !Replica(wire, sub.id).Unsynced? ==>
              Replica(wire + [m], sub.id) == Holding(ForestOf(selection))
  {
    if replica {
      PatchedCopy(sub, selection, Replica(wire, sub.id));
    }
    AfterChange(wire, m);
    NextPatchId(ChangesSinceSync(wire, sub.id));
    InStepAfresh(after, selection);
  }

  lemma FireChangeKeeps(sub: Subscription, selection: Selection, now: int, wire: seq<Message>, due: bool, replica: bool)
    requires SubInv(sub, wire, due, replica) && sub.changeTimer.armed > 0
    ensures Keeps(FireChange(sub, selection, now), sub.id, now, wire, due, replica)
    ensures var o := FireChange(sub, selection, now);
            o.sub.Some? && o.sent != [] && replica && !Replica(wire, sub.id).Unsynced? ==>
              Replica(wire + o.sent, sub.id) == Holding(ForestOf(selection))
  {
    var fired := sub.(changeTimer := Fired(sub.changeTimer));
    if !Expired(fired, now) {
      if Dampened(fired, now) {
        ScheduleOnChangeKeeps(fired, now, wire, due, replica);
      } else {
        SendChangeKeeps(fired, selection, now, wire, due, replica);
      }
    }
  }

  lemma ObserveKeeps(sub: Subscription, selection: Selection, now: int, wire: seq<Message>, due: bool, replica: bool)
    requires SubInv(sub, wire, due, replica)
    ensures Keeps(Observe(sub, selection, now), sub.id, now, wire, due, replica)
    ensures Observe(sub, selection, now).sent == []
  {
    NothingSent(wire);
    if IsOnChange(sub) && !Expired(sub, now) {
      if replica {
        RecordInStep(sub, selection, Replica(wire, sub.id));
      }
      if Diff(Baseline(sub, selection), selection, []) != [] {
        ScheduleOnChangeKeeps(Record(sub, selection), now, wire, due, replica);
      }
    }
  }

  lemma ScheduleStopKeeps(sub: Subscription, now: int, wire: seq<Message>, due: bool, replica: bool)
    requires SubInv(sub, wire, due, replica) && !sub.stopTimer.held
    ensures Keeps(ScheduleStop(sub, now), sub.id, now, wire, due, replica)
  {
    NothingSent(wire);
  }

  lemma FireStopKeeps(sub: Subscription, now: int, wire: seq<Message>, due: bool, replica: bool)
    requires SubInv(sub, wire, due, replica) && sub.stopTimer.armed > 0
    ensures Keeps(FireStop(sub, now), sub.id, now, wire, due, replica)
  {
    ScheduleStopKeeps(sub.(stopTimer := Fired(sub.stopTimer)), now, wire, due, replica);
  }

  lemma TickKeeps(sub: Subscription, selection: Selection, now: int, wire: seq<Message>, due: bool, replica: bool)
    requires SubInv(sub, wire, due, replica) && IsPeriodic(sub) && !sub.updateTimer.held
    ensures Keeps(Tick(sub, selection, now), sub.id, now, wire, due, replica)
    ensures var o := Tick(sub, selection, now);
            o.sent != [] ==> Replica(wire + o.sent, sub.id) == Holding(ForestOf(selection))
  {
    NothingSent(wire);
    if !Expired(sub, now) && sub.nextUpdateAt - now <= 0 {
      SendUpdateKeeps(sub, selection, now, wire, due, replica);
    }
  }

  lemma TickMovesOn(sub: Subscription, selection: Selection, now: int)
    ensures var o := Tick(sub, selection, now); o.sub.Some? && IsPeriodic(sub) ==> o.sub.value.nextUpdateAt > now
  {
    if IsPeriodic(sub) && sub.nextUpdateAt <= now {
      var d, p := now - sub.nextUpdateAt, sub.kind.trigger.period;
      assert d == d / p * p + d % p;
      assert (d / p + 1) * p == d / p * p + p;
    }
  }

  lemma FireUpdateKeeps(sub: Subscription, selection: Selection, now: int, wire: seq<Message>, due: bool, replica: bool)
    requires SubInv(sub, wire, due, replica) && sub.updateTimer.armed > 0
    ensures Keeps(FireUpdate(sub, selection, now), sub.id, now, wire, due, replica)
    ensures var o := FireUpdate(sub, selection, now);
            o.sent != [] ==> Replica(wire + o.sent, sub.id) == Holding(ForestOf(selection))
  {
    TickKeeps(sub.(updateTimer := Fired(sub.updateTimer)), selection, now, wire, due, replica);
  }

  lemma ModifyKeeps(sub: Subscription, kind: Kind, stopTime: Option<int>, wire: seq<Message>, due: bool, replica: bool)
    requires SubInv(sub, wire, due, replica)
    ensures SubInv(Modify(sub, kind, stopTime), wire, true, replica)
    ensures Modify(sub, kind, stopTime).id == sub.id
  {
  }

  lemma EstablishKeeps(id: nat, kind: Kind, stopTime: Option<int>, wire: seq<Message>, replica: bool)
    requires forall m :: m in wire ==> m.id != id
    ensures SubInv(Establish(id, kind, stopTime), wire, true, replica)
  {
    OthersUnaffected([], wire, id);
    assert [] + wire == wire;
  }

  // ---------------------------------------------------------------- delivery

  /** Delivery under a periodic trigger empties the queue without sending a push-update first. */
  predicate DropsQueue(sub: Subscription, initial: bool) {
    IsPeriodic(sub) && !(initial && sub.kind.trigger.anchor.None?)
  }

  /** What the dropped queue would have told the receiver is nothing. */
  ghost predicate QueueHasNoEffect(sub: Subscription) {
    sub.last.Some? && sub.observed.Some? ==> SameUpToOrder(sub.last.value, sub.observed.value)
  }

  lemma FirstUpdateIsLater(trigger: Trigger, base: int, now: int)
    requires trigger.Periodic? && base >= now
    ensures FirstUpdateAt(trigger, base, now) > now
  {
    if trigger.anchor.Some? && trigger.anchor.value <= now {
      var d, p := now - trigger.anchor.value, trigger.period;
      assert d == d / p * p + d % p;
      assert (d / p + 1) * p == d / p * p + p;
    }
  }

  lemma EmptiedInStep(sub: Subscription, copy: Copy)
    requires InStep(sub, copy)
    ensures InStep(sub.(pending := []), copy) <==> copy.Unsynced? || QueueHasNoEffect(sub)
  {
    if !copy.Unsynced? {
      DiffEmptyIffSame(sub.last.value, sub.observed.value);
    }
  }

  lemma DeliverPeriodicShape(sub: Subscription, selection: Selection, now: int, initial: bool)
    requires IsPeriodic(sub) && !Expired(sub, now)
    ensures var o := DeliverPeriodic(sub, selection, now, initial);
            var next := FirstUpdateAt(sub.kind.trigger, now, now);
            var emptied := sub.(pending := []);
            if DropsQueue(sub, initial) then
              o == Outcome(Some(emptied.(nextUpdateAt := next, updateTimer := Arm(sub.updateTimer))), [])
            else
              var pushed := SendUpdate(emptied, selection, now);
              o == Outcome(Some(pushed.sub.value.(nextUpdateAt := next, updateTimer := Arm(sub.updateTimer))),
                           pushed.sent)
  {
    FirstUpdateIsLater(sub.kind.trigger, now, now);
  }

  lemma DeliverPeriodicKeeps(sub: Subscription, selection: Selection, now: int, initial: bool, wire: seq<Message>,
                             due: bool, replica: bool)
    requires SubInv(sub, wire, due, replica) && IsPeriodic(sub) && !Expired(sub, now) && !sub.updateTimer.held
    requires replica && DropsQueue(sub, initial) && !Replica(wire, sub.id).Unsynced? ==> QueueHasNoEffect(sub)
    ensures Keeps(DeliverPeriodic(sub, selection, now, initial), sub.id, now, wire, false, replica)
    ensures var o := DeliverPeriodic(sub, selection, now, initial);
            o.sent != [] ==> Replica(wire + o.sent, sub.id) == Holding(ForestOf(selection))
  {
    DeliverPeriodicShape(sub, selection, now, initial);
    if DropsQueue(sub, initial) {
      DroppedQueueKeeps(sub, FirstUpdateAt(sub.kind.trigger, now, now), wire, due, replica);
      NothingSent(wire);
    } else {
      SendUpdateKeeps(sub.(pending := []), selection, now, wire, false, replica);
      PeriodicRearmed(SendUpdate(sub.(pending := []), selection, now), sub,
                      FirstUpdateAt(sub.kind.trigger, now, now), wire, now, replica);
    }
  }

  lemma DroppedQueueKeeps(sub: Subscription, next: int, wire: seq<Message>, due: bool, replica: bool)
    requires SubInv(sub, wire, due, replica) && IsPeriodic(sub) && !sub.updateTimer.held
    requires replica && !Replica(wire, sub.id).Unsynced? ==> QueueHasNoEffect(sub)
    ensures SubInv(sub.(pending := [], nextUpdateAt := next, updateTimer := Arm(sub.updateTimer)), wire, false, replica)
  {
    if replica {
      EmptiedInStep(sub, Replica(wire, sub.id));
    }
  }

  lemma PeriodicRearmed(pushed: Outcome, sub: Subscription, next: int, wire: seq<Message>, now: int, replica: bool)
    requires pushed.sub.Some? && Keeps(pushed, sub.id, now, wire, false, replica)
    requires TimersOwned(sub) && !sub.updateTimer.held && IsPeriodic(pushed.sub.value)
    ensures Keeps(Outcome(Some(pushed.sub.value.(nextUpdateAt := next, updateTimer := Arm(sub.updateTimer))),
                          pushed.sent),
                  sub.id, now, wire, false, replica)
  {
  }

  lemma DeliverOnChangeKeeps(sub: Subscription, selection: Selection, now: int, wire: seq<Message>, due: bool,
                             replica: bool)
    requires SubInv(sub, wire, due, replica) && IsOnChange(sub)
    ensures var base := if sub.last.Some? then sub.last.value else selection;
            Keeps(ScheduleOnChange(Record(sub, selection).(last := Some(base)), now), sub.id, now, wire, false, replica)
  {
    if replica {
      RecordInStep(sub, selection, Replica(wire, sub.id));
    }
    var base := if sub.last.Some? then sub.last.value else selection;
    ScheduleOnChangeKeeps(Record(sub, selection).(last := Some(base)), now, wire, false, replica);
  }

  /** Activation re-arms or empties the queue, so afterwards no activation needs to be due. */
  lemma DeliverKeeps(sub: Subscription, selection: Selection, now: int, initial: bool, wire: seq<Message>, due: bool,
                     replica: bool)
    requires SubInv(sub, wire, due, replica) && !sub.updateTimer.held && !sub.stopTimer.held
    requires replica && DropsQueue(sub, initial) && !Expired(sub, now) && !Replica(wire, sub.id).Unsynced? ==>
             QueueHasNoEffect(sub)
    ensures Keeps(Deliver(sub, selection, now, initial), sub.id, now, wire, false, replica)
    ensures var o := Deliver(sub, selection, now, initial);
            o.sent != [] ==> Replica(wire + o.sent, sub.id) == Holding(ForestOf(selection))
  {
    NothingSent(wire);
    if !Expired(sub, now) {
      ScheduleStopKeeps(sub, now, wire, due, replica);
      var stopping := ScheduleStop(sub, now).sub.value;
      if IsPeriodic(sub) {
        DeliverPeriodicKeeps(stopping, selection, now, initial, wire, due, replica);
      } else if IsOnChange(sub) {
        if initial && sub.kind.trigger.syncOnStart {
          SendUpdateKeeps(stopping, selection, now, wire, false, replica);
        } else {
          DeliverOnChangeKeeps(stopping, selection, now, wire, due, replica);
        }
      }
    }
  }

  lemma DeliverModifiedKeeps(sub: Subscription, selection: Selection, now: int, wire: seq<Message>, due: bool,
                             replica: bool)
    requires SubInv(sub, wire, due, replica)
    requires replica && DropsQueue(sub, false) && !Expired(sub, now) && !Replica(wire, sub.id).Unsynced? ==>
             QueueHasNoEffect(sub)
    ensures Keeps(DeliverModified(sub, selection, now), sub.id, now, wire, false, replica)
    ensures var o := DeliverModified(sub, selection, now);
            o.sent != [] ==> Replica(wire + o.sent, sub.id) == Holding(ForestOf(selection))
  {
    assert SubInv(ClearTimers(sub), wire, true, replica);
    DeliverKeeps(ClearTimers(sub), selection, now, false, wire, true, replica);
  }

  // ------------------------------------------------------------------ healing

  /** Whatever pushes a whole selection restarts the subscription from that selection. */
  ghost predicate Restarts(o: Outcome) {
    forall m :: m in o.sent && m.PushUpdate? ==>
      o.sub.Some? && o.sub.value.pending == [] && o.sub.value.last == Some(m.contents)
          && o.sub.value.observed == Some(m.contents)
  }

  lemma TickRestarts(sub: Subscription, selection: Selection, now: int)
    ensures Restarts(Tick(sub, selection, now))
  {
  }

  lemma DeliverRestarts(sub: Subscription, selection: Selection, now: int, initial: bool)
    ensures Restarts(Deliver(sub, selection, now, initial))
  {
    if !Expired(sub, now) && IsPeriodic(sub) {
      DeliverPeriodicShape(ScheduleStop(sub, now).sub.value, selection, now, initial);
    }
  }

  /** The update timer pushes when the update is due, which puts the receiver in step, and moves on. */
  lemma FireUpdateResult(sub: Subscription, selection: Selection, now: int, wire: seq<Message>, due: bool,
                         replica: bool)
    requires SubInv(sub, wire, due, replica) && sub.updateTimer.armed > 0
    ensures var o := FireUpdate(sub, selection, now);
            && Keeps(o, sub.id, now, wire, due, replica || o.sent != [])
            && (o.sent != [] ==> Replica(wire + o.sent, sub.id) == Holding(ForestOf(selection)))
            && (o.sub.Some? ==> o.sub.value.nextUpdateAt > now && (o.sent != [] <==> sub.nextUpdateAt <= now))
            && (o.sent == [] ==> wire + o.sent == wire) && (o.sent != [] ==> wire + o.sent != wire)
  {
    var fired := sub.(updateTimer := Fired(sub.updateTimer));
    FireUpdateKeeps(sub, selection, now, wire, due, replica);
    TickMovesOn(fired, selection, now);
    SendUpdateKeeps(fired, selection, now, wire, due, true);
    NothingSent(wire);
  }

  /** A push-update that starts delivery puts the receiver in step. */
  lemma DeliverRestarted(sub: Subscription, selection: Selection, now: int, initial: bool, wire: seq<Message>,
                         due: bool)
    requires SubInv(sub, wire, due, false) && !sub.updateTimer.held && !sub.stopTimer.held
    requires Deliver(sub, selection, now, initial).sent != []
    ensures Keeps(Deliver(sub, selection, now, initial), sub.id, now, wire, false, true)
  {
    var stopping := ScheduleStop(sub, now).sub.value;
    if IsPeriodic(sub) {
      DeliverPeriodicShape(stopping, selection, now, initial);
      var emptied := stopping.(pending := []);
      SendUpdateKeeps(emptied, selection, now, wire, false, true);
      PeriodicRearmed(SendUpdate(emptied, selection, now), stopping, FirstUpdateAt(sub.kind.trigger, now, now), wire,
                      now, true);
    } else {
      SendUpdateKeeps(stopping, selection, now, wire, false, true);
    }
  }

  /** Starting delivery, with or without a push. */
  lemma DeliverResult(sub: Subscription, selection: Selection, now: int, initial: bool, wire: seq<Message>,
                      due: bool, replica: bool)
    requires SubInv(sub, wire, due, replica) && !sub.updateTimer.held && !sub.stopTimer.held
    requires replica && DropsQueue(sub, initial) && !Expired(sub, now) && !Replica(wire, sub.id).Unsynced? ==>
               QueueHasNoEffect(sub)
    ensures var o := Deliver(sub, selection, now, initial);
            && (o.sub.Some? ==> o.sub.value.id == sub.id
                                && SubInv(o.sub.value, wire + o.sent, false, replica || o.sent != []))
            && (o.sent != [] ==> Replica(wire + o.sent, sub.id) == Holding(ForestOf(selection)))
            && (o.sent == [] ==> wire + o.sent == wire) && (o.sent != [] ==> wire + o.sent != wire)
  {
    DeliverKeeps(sub, selection, now, initial, wire, due, replica);
    if Deliver(sub, selection, now, initial).sent != [] {
      DeliverRestarted(sub, selection, now, initial, wire, due);
    }
    NothingSent(wire);
  }

  /** Without an initial push, starting delivery sends nothing. */
  lemma NothingPushed(sub: Subscription, selection: Selection, now: int)
    ensures Deliver(sub, selection, now, false).sent == []
  {
    if !Expired(sub, now) && IsPeriodic(sub) {
      DeliverPeriodicShape(ScheduleStop(sub, now).sub.value, selection, now, false);
    }
  }

  // ----------------------------------------------------- exact conditions

  /** Delivery that empties the queue of a synced subscription keeps the receiver in step exactly when the queue
      it throws away had no net effect. */
  lemma DropKeepsStepIff(sub: Subscription, selection: Selection, now: int, initial: bool, copy: Copy)
    requires DropsQueue(sub, initial) && !Expired(sub, now)
    requires InStep(sub, copy) && !copy.Unsynced?
    ensures var o := Deliver(sub, selection, now, initial);
            o.sub.Some? && o.sent == [] && (InStep(o.sub.value, copy) <==> QueueHasNoEffect(sub))
  {
    DeliverPeriodicShape(ScheduleStop(sub, now).sub.value, selection, now, initial);
    EmptiedInStep(sub, copy);
  }

  lemma DroppedLeavesBehind(sub: Subscription, selection: Selection, now: int, initial: bool, copy: Copy)
    requires DropsQueue(sub, initial) && !Expired(sub, now) && !QueueHasNoEffect(sub)
    requires InStep(sub, copy) && !copy.Unsynced?
    ensures var o := if initial then Deliver(sub, selection, now, true) else DeliverModified(sub, selection, now);
            o.sub.Some? && o.sent == [] && !InStep(o.sub.value, copy)
  {
    DropKeepsStepIff(if initial then sub else ClearTimers(sub), selection, now, initial, copy);
  }

  /** A push-change-update is never sent inside the dampening period that follows the previous push. */
  lemma ChangeUpdatesAreDampened(sub: Subscription, selection: Selection, now: int, wire: seq<Message>, due: bool,
                                 replica: bool)
    requires SubInv(sub, wire, due, replica) && sub.changeTimer.armed > 0
    ensures FireChange(sub, selection, now).sent != [] ==>
              IsOnChange(sub) && !Expired(sub, now)
              && (LastPushAt(wire, sub.id).Some? ==> now >= LastPushAt(wire, sub.id).value + sub.kind.trigger.dampening)
  {
  }

  /** The diff against the last selection, used when the queue is empty, never finds an edit for a synced
      receiver. */
  lemma FallbackDiffIsEmpty(sub: Subscription, selection: Selection, copy: Copy)
    requires InStep(sub, copy) && !copy.Unsynced?
    requires Record(sub, selection).pending == []
    ensures PatchEdits(Record(sub, selection), selection) == []
  {
    RecordInStep(sub, selection, copy);
    DiffEmptyIffSame(sub.last.value, selection);
  }
}
