/** Receivers in every run, also after edits have been lost: exactly when they still agree. */
module ServerLimits {
  import opened Options
  import opened SelectionDiff
  import opened YangPush
  import opened ReplicaProofs
  import opened PatchTransfer
  import opened ReplicaLimits
  import opened NetconfServer
  import opened ServerProofs
  import opened ServerSteps
  import opened ServerRuns
  import opened ServerTheorems

  // ------------------------------------------------- queues lead to what was observed

  lemma TurnLed(sub: Subscription, selection: Selection, now: int, turn: Turn)
    requires Led(sub)
    ensures var o := TakeTurn(sub, selection, now, turn); o.sub.Some? ==> Led(o.sub.value)
  {
    match turn
    case ChangeFires => FireChangeLed(sub, selection, now);
    case UpdateFires => TickLed(sub.(updateTimer := Fired(sub.updateTimer)), selection, now);
    case StopFires =>
    case Activation(initial) => DeliverLed(if initial then sub else ClearTimers(sub), selection, now, initial);
    case Resynchronisation => SendUpdateLed(sub, selection, now);
  }

  lemma BecameLed(s: Server, e: Event, t: Server, sid: nat, id: nat)
    requires Live(t, sid, id) && Became(s, e, t, sid, id)
    requires Live(s, sid, id) ==> Led(Sub(s, sid, id))
    ensures Led(Sub(t, sid, id))
  {
    if !Awaits(s, e, t, sid, id) && !Stayed(s, t, sid, id) {
      var sub := Sub(s, sid, id);
      if Looked(s, t, sid, id) {
        ObserveLed(sub, Selected(t, sub), s.now);
      } else {
        TurnLed(sub, Selected(s, sub), s.now, TurnOf(s, e, sid, id).value);
      }
    }
  }

  ghost predicate AllLed(s: Server) {
    forall sid: nat, id: nat :: Live(s, sid, id) ==> Led(Sub(s, sid, id))
  }

  lemma StepLed(s: Server, e: Event, t: Server)
    requires Inv(s, {}) && t == Step(s, e) && AllLed(s)
    ensures AllLed(t)
  {
    forall sid: nat, id: nat | Live(t, sid, id) ensures Led(Sub(t, sid, id)) {
      StepBecomes(s, e, t, sid, id);
      BecameLed(s, e, t, sid, id);
    }
  }

  lemma StartsLed(s: Server)
    requires s.sessions == map[]
    ensures AllLed(s)
  {
  }

  lemma {:induction false} RunKeepsLed(states: seq<Server>, events: seq<Event>, k: nat)
    requires IsRun(states, events) && k < |states|
    ensures AllLed(states[k])
    decreases k
  {
    if k == 0 {
      StartsLed(states[0]);
    } else {
      RunKeepsLed(states, events, k - 1);
      RunKeepsInv(states, events, k - 1);
      assert states[k - 1 + 1] == Step(states[k - 1], events[k - 1]);
      StepLed(states[k - 1], events[k - 1], states[k]);
    }
  }

  // ----------------------------------------------------------- exact conditions

  /** The edits take a receiver that holds `f` to the selection: every edit that is the first at its place fits,
      and nothing differs at the places no edit touches. */
  ghost predicate Suits(f: Forest, edits: seq<Edit>, selection: Selection) {
    FirstsFit(f, [], edits) && AgreeElsewhere(f, ForestOf(selection), edits)
  }

  lemma SuitsIff(f: Forest, edits: seq<Edit>, selection: Selection)
    requires LeadsTo(edits, selection)
    ensures Patch(f, edits) == Some(ForestOf(selection)) <==> Suits(f, edits, selection)
  {
    var v :| Patch(v, edits) == Some(ForestOf(selection));
    TransferIff(f, v, edits, selection);
  }

  /** In every state of every run, whatever was lost before, the queue of an active on-change subscription takes
      the receiver's copy to the current selection exactly when it suits that copy. */
  lemma FollowsIff(states: seq<Server>, events: seq<Event>, k: nat, sid: nat, id: nat)
    requires IsRun(states, events) && k < |states|
    requires Live(states[k], sid, id) && IsOnChange(Sub(states[k], sid, id)) && !Due(states[k].queues, sid, id)
    requires Replica(states[k].wire, id).Holding?
    ensures var sub, f := Sub(states[k], sid, id), Replica(states[k].wire, id).forest;
            Patch(f, sub.pending) == Some(ForestOf(Selected(states[k], sub)))
            <==> Suits(f, sub.pending, Selected(states[k], sub))
  {
    RunKeepsLed(states, events, k);
    RunKeepsCurrent(states, events, k);
    RunKeepsInv(states, events, k);
    var sub := Sub(states[k], sid, id);
    assert CurrentAt(states[k], sid, sub) && Led(sub);
    SuitsIff(Replica(states[k].wire, id).forest, sub.pending, Selected(states[k], sub));
  }

  lemma ChangeSendSuits(s: Server, sid: nat, id: nat, m: Message)
    requires Owned(s) && AllLed(s) && Live(s, sid, id) && Sub(s, sid, id).changeTimer.armed > 0
    requires StepChangeTimer(s, sid, id).wire == s.wire + [m] && m.PushChangeUpdate? && m.id == id
    requires Replica(s.wire, id).Holding?
    ensures var f, selection := Replica(s.wire, id).forest, Selected(s, Sub(s, sid, id));
            Replica(s.wire + [m], id) == Holding(ForestOf(selection)) <==> Suits(f, m.edits, selection)
  {
    var sub := Sub(s, sid, id);
    var sent := FireChange(sub, Selected(s, sub), s.now).sent;
    AddedIsSuffix(s.wire, sent);
    AddedIsSuffix(s.wire, [m]);
    assert Led(sub);
    FireChangeLed(sub, Selected(s, sub), s.now);
    assert m in sent;
    AfterChange(s.wire, m);
    SuitsIff(Replica(s.wire, id).forest, m.edits, Selected(s, sub));
  }

  /** A change update of any run leaves the receiver with the current selection exactly when it suits the copy it
      meets. */
  lemma ChangeSendAgreesIff(states: seq<Server>, events: seq<Event>, k: nat, m: Message)
    requires IsRun(states, events) && SentAt(states, events, k, m) && m.PushChangeUpdate?
    requires Replica(states[k].wire, m.id).Holding?
    ensures exists sid: nat :: Live(states[k], sid, m.id)
              && var f, selection := Replica(states[k].wire, m.id).forest,
                  Selected(states[k], Sub(states[k], sid, m.id));
                 (Replica(states[k + 1].wire, m.id) == Holding(ForestOf(selection)) <==> Suits(f, m.edits, selection))
  {
    var sid := ChangeSendOf(states, events, k, m);
    RunKeepsLed(states, events, k);
    RunKeepsInv(states, events, k);
    ChangeSendSuits(states[k], sid, m.id, m);
  }

  // --------------------------------------------------------- idle subscriptions

  /** A synced receiver holds what the subscription counts as last sent. */
  ghost predicate CopyIsLast(sub: Subscription, copy: Copy) {
    copy.Unsynced? || (sub.last.Some? && copy == Holding(ForestOf(sub.last.value)))
  }

  ghost predicate CopyIsLastOf(s: Server, id: nat) {
    forall sid: nat :: Live(s, sid, id) ==> CopyIsLast(Sub(s, sid, id), Replica(s.wire, id))
  }

  /** A turn that sends nothing leaves alone what was last sent, if anything was. */
  lemma QuietTurn(sub: Subscription, selection: Selection, now: int, turn: Turn)
    ensures var o := TakeTurn(sub, selection, now, turn);
            o.sub.Some? && o.sent == [] ==> sub.last.None? || o.sub.value.last == sub.last
  {
    if turn.Activation? && !Expired(sub, now) && IsPeriodic(sub) {
      var waiting := if turn.initial then sub else ClearTimers(sub);
      DeliverPeriodicShape(ScheduleStop(waiting, now).sub.value, selection, now, turn.initial);
    }
  }

  lemma SilentReplica(s: Server, t: Server, id: nat)
    requires Silent(s, t, id)
    ensures Replica(t.wire, id) == Replica(s.wire, id)
  {
    var sent := t.wire[|s.wire|..];
    assert t.wire == s.wire + sent;
    OthersUnaffected(s.wire, sent, id);
  }

  lemma SilentBecomes(s: Server, e: Event, t: Server, sid: nat, id: nat)
    requires Owned(s) && Live(t, sid, id) && Became(s, e, t, sid, id) && Silent(s, t, id)
    requires CopyIsLastOf(s, id)
    ensures CopyIsLast(Sub(t, sid, id), Replica(t.wire, id))
  {
    SilentReplica(s, t, id);
    if Live(s, sid, id) {
      assert CopyIsLast(Sub(s, sid, id), Replica(s.wire, id));
      KeptLast(s, e, t, sid, id);
    } else {
      OthersUnaffected([], s.wire, id);
      assert [] + s.wire == s.wire;
    }
  }

  lemma KeptLast(s: Server, e: Event, t: Server, sid: nat, id: nat)
    requires Owned(s) && Live(s, sid, id) && Live(t, sid, id) && Became(s, e, t, sid, id) && Silent(s, t, id)
    ensures Sub(s, sid, id).last.None? || Sub(t, sid, id).last == Sub(s, sid, id).last
  {
    if Ran(s, e, t, sid, id) {
      RanQuietly(s, e, t, sid, id);
    } else if Looked(s, t, sid, id) {
      ObserveKeepsLast(Sub(s, sid, id), Selected(t, Sub(s, sid, id)), s.now);
    }
  }

  lemma ObserveKeepsLast(sub: Subscription, selection: Selection, now: int)
    ensures var o := Observe(sub, selection, now); o.sub.Some? ==> o.sub.value.last == sub.last
  {
  }

  lemma RanQuietly(s: Server, e: Event, t: Server, sid: nat, id: nat)
    requires Owned(s) && Live(s, sid, id) && Live(t, sid, id) && Ran(s, e, t, sid, id) && Silent(s, t, id)
    ensures Sub(s, sid, id).last.None? || Sub(t, sid, id).last == Sub(s, sid, id).last
  {
    var sub := Sub(s, sid, id);
    var turn := TurnOf(s, e, sid, id).value;
    var o := TakeTurn(sub, Selected(s, sub), s.now, turn);
    AddedIsSuffix(s.wire, o.sent);
    TurnPushes(sub, Selected(s, sub), s.now, turn);
    QuietTurn(sub, Selected(s, sub), s.now, turn);
  }

  /** What a turn sends is a push of its own subscription. */
  lemma TurnPushes(sub: Subscription, selection: Selection, now: int, turn: Turn)
    ensures var sent := TakeTurn(sub, selection, now, turn).sent;
            sent == [] || (sent[0] in sent && sent[0].id == sub.id && !sent[0].EventRecord?)
  {
    if turn.Activation? && !Expired(sub, now) && IsPeriodic(sub) {
      var waiting := if turn.initial then sub else ClearTimers(sub);
      DeliverPeriodicShape(ScheduleStop(waiting, now).sub.value, selection, now, turn.initial);
    }
  }

  lemma SilentStep(s: Server, e: Event, t: Server, id: nat)
    requires Inv(s, {}) && t == Step(s, e) && Silent(s, t, id) && CopyIsLastOf(s, id)
    ensures CopyIsLastOf(t, id)
  {
    forall sid: nat | Live(t, sid, id) ensures CopyIsLast(Sub(t, sid, id), Replica(t.wire, id)) {
      StepBecomes(s, e, t, sid, id);
      SilentBecomes(s, e, t, sid, id);
    }
  }

  lemma InStepIsLast(s: Server, id: nat)
    requires InStepOf(s, id)
    ensures CopyIsLastOf(s, id)
  {
  }

  ghost predicate ChangedAt(states: seq<Server>, k: nat, id: nat) {
    k + 1 < |states| && !Silent(states[k], states[k + 1], id) && !UpdatedAt(states, k, id)
  }

  /** No change update has been sent between a loss of edits of `id` and the push-update that heals it. */
  ghost predicate NoBlindChange(states: seq<Server>, events: seq<Event>, k: nat, id: nat)
    requires k <= |events| <= |states|
  {
    forall i: nat, j: nat :: i < j < k && LosesEdits(states[i], events[i], id) && ChangedAt(states, j, id) ==>
      exists l: nat :: i < l < k && UpdatedAt(states, l, id)
  }

  lemma {:induction false} RunKeepsCopyIsLast(states: seq<Server>, events: seq<Event>, k: nat, id: nat)
    requires IsRun(states, events) && k < |states| && NoBlindChange(states, events, k, id)
    ensures CopyIsLastOf(states[k], id)
    decreases k
  {
    if k > 0 {
      if ChangedAt(states, k - 1, id) {
        LastAfterChange(states, events, k - 1, id);
      } else if UpdatedAt(states, k - 1, id) {
        LastAfterUpdate(states, events, k - 1, id);
      } else {
        NoBlindChangeBefore(states, events, k - 1, id);
        RunKeepsCopyIsLast(states, events, k - 1, id);
        LastAfterSilence(states, events, k - 1, id);
      }
    }
  }

  lemma LastAfterChange(states: seq<Server>, events: seq<Event>, k: nat, id: nat)
    requires IsRun(states, events) && k < |events| && NoBlindChange(states, events, k + 1, id)
    requires ChangedAt(states, k, id)
    ensures CopyIsLastOf(states[k + 1], id)
  {
    BlindFree(states, events, k, id);
    RunKeepsInStep(states, events, k, id);
    RunKeepsInv(states, events, k);
    StepCopyIsLast(states[k], events[k], states[k + 1], id);
  }

  lemma LastAfterUpdate(states: seq<Server>, events: seq<Event>, k: nat, id: nat)
    requires IsRun(states, events) && k < |events| && UpdatedAt(states, k, id)
    ensures CopyIsLastOf(states[k + 1], id)
  {
    RunKeepsInv(states, events, k);
    StepCopyIsLast(states[k], events[k], states[k + 1], id);
  }

  lemma LastAfterSilence(states: seq<Server>, events: seq<Event>, k: nat, id: nat)
    requires IsRun(states, events) && k < |events| && CopyIsLastOf(states[k], id)
    requires !ChangedAt(states, k, id) && !UpdatedAt(states, k, id)
    ensures CopyIsLastOf(states[k + 1], id)
  {
    RunKeepsInv(states, events, k);
    StepCopyIsLast(states[k], events[k], states[k + 1], id);
  }

  lemma StepCopyIsLast(s: Server, e: Event, t: Server, id: nat)
    requires Inv(s, {}) && t == Step(s, e)
    ensures Updates(s, t, id) ==> CopyIsLastOf(t, id)
    ensures !Silent(s, t, id) && Inv(s, {id}) ==> CopyIsLastOf(t, id)
    ensures Silent(s, t, id) && CopyIsLastOf(s, id) ==> CopyIsLastOf(t, id)
  {
    if Updates(s, t, id) {
      UpdateHeals(s, e, id);
      InStepIsLast(t, id);
    } else if !Silent(s, t, id) {
      if Inv(s, {id}) {
        ChangeInStep(s, e, t, id);
      }
    } else if CopyIsLastOf(s, id) {
      SilentStep(s, e, t, id);
    }
  }

  lemma NoBlindChangeBefore(states: seq<Server>, events: seq<Event>, k: nat, id: nat)
    requires k < |events| && |states| == |events| + 1 && NoBlindChange(states, events, k + 1, id)
             && !UpdatedAt(states, k, id)
    ensures NoBlindChange(states, events, k, id)
  {
  }

  lemma BlindFree(states: seq<Server>, events: seq<Event>, k: nat, id: nat)
    requires k < |events| && |states| == |events| + 1 && NoBlindChange(states, events, k + 1, id)
             && ChangedAt(states, k, id)
    ensures Intact(states, events, k, id)
  {
  }

  /** A change update sent in step leaves the receiver in step. */
  lemma ChangeInStep(s: Server, e: Event, t: Server, id: nat)
    requires Inv(s, {id}) && t == Step(s, e) && !Silent(s, t, id)
    ensures CopyIsLastOf(t, id)
  {
    LossIsSilent(s, e, t, id);
    StepKeepsInStepIff(s, e, id);
    InStepIsLast(t, id);
  }

  lemma LossIsSilent(s: Server, e: Event, t: Server, id: nat)
    requires Inv(s, {id}) && t == Step(s, e)
    ensures LosesEdits(s, e, id) ==> Silent(s, t, id)
  {
    if LosesEdits(s, e, id) {
      WriteDoneStep(s, e);
      WriteDoneLossIsSilent(s, e.sid, id, t);
    }
  }

  lemma WriteDoneLossIsSilent(s: Server, sid: nat, id: nat, t: Server)
    requires Inv(s, {id}) && LosesEdits(s, WriteDone(sid), id) && t == StepWriteDone(s, sid)
    ensures Silent(s, t, id)
  {
    var c, sub := s.queues[sid][0], Sub(s, sid, id);
    assert SubOk(sub, s.wire, s.queues, sid, id in {id});
    DroppedLeavesBehind(sub, Selected(s, sub), s.now, c.ActivateNew?, Replica(s.wire, id));
    NothingSent(s.wire);
    SilentWhenSame(s, t, id);
  }

  /** With nothing queued, the copy of a synced receiver is the current selection exactly when what was last sent
      and what was last observed are the same up to sibling order. */
  lemma IdleAgreesIff(states: seq<Server>, events: seq<Event>, k: nat, sid: nat, id: nat)
    requires IsRun(states, events) && k < |states| && NoBlindChange(states, events, k, id)
    requires Live(states[k], sid, id) && IsOnChange(Sub(states[k], sid, id)) && !Due(states[k].queues, sid, id)
    requires Sub(states[k], sid, id).pending == [] && !Replica(states[k].wire, id).Unsynced?
    ensures var sub, copy := Sub(states[k], sid, id), Replica(states[k].wire, id);
            && sub.last.Some? && sub.observed.Some? && copy.Holding?
            && (copy.forest == ForestOf(Selected(states[k], sub))
                <==> SameUpToOrder(sub.last.value, sub.observed.value))
  {
    RunKeepsCurrent(states, events, k);
    RunKeepsCopyIsLast(states, events, k, id);
    RunKeepsInv(states, events, k);
    var sub := Sub(states[k], sid, id);
    assert CurrentAt(states[k], sid, sub) && CopyIsLast(sub, Replica(states[k].wire, id));
    DiffEmptyIffSame(sub.last.value, sub.observed.value);
  }
}
