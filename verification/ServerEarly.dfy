/** Subscriptions without sync-on-start in every run: what happens before their activation, and exactly when a
    receiver can start from the selection that activation records as sent. */
module ServerEarly {
  import opened Options
  import opened SelectionDiff
  import opened YangPush
  import opened ReplicaProofs
  import opened PatchTransfer
  import opened ReplicaLimits
  import opened NetconfServer
  import opened ServerProofs
  import opened ServerSteps
  import opened ServerRuns
  import opened ServerLimits

  // ------------------------------------------------------- one subscription

  /** The queue leads from the selection recorded as sent to the observed one. */
  ghost predicate FromLast(sub: Subscription) {
    && sub.last.Some? && sub.observed.Some?
    && Patch(ForestOf(sub.last.value), sub.pending) == Some(ForestOf(sub.observed.value))
  }

  /** Before activation: nothing has been pushed and nothing is recorded as sent, or the queue leads on from what
      was pushed last. */
  ghost predicate Early(sub: Subscription) {
    if sub.lastUpdateAt.None? then sub.last.None? else FromLast(sub)
  }

  lemma RecordFromLast(sub: Subscription, selection: Selection)
    requires FromLast(sub)
    ensures FromLast(Record(sub, selection))
  {
    var edits := Diff(sub.observed.value, selection, []);
    PatchAppend(ForestOf(sub.last.value), sub.pending, edits);
    DiffThenPatch(sub.observed.value, selection, edits);
  }

  lemma RecordEarly(sub: Subscription, selection: Selection)
    requires Early(sub)
    ensures Early(Record(sub, selection))
  {
    if sub.lastUpdateAt.Some? {
      RecordFromLast(sub, selection);
    }
  }

  lemma ObserveEarly(sub: Subscription, selection: Selection, now: int)
    requires Early(sub)
    ensures var o := Observe(sub, selection, now); o.sub.Some? ==> Early(o.sub.value)
  {
    RecordEarly(sub, selection);
  }

  lemma FireChangeEarly(sub: Subscription, selection: Selection, now: int)
    requires Early(sub)
    ensures var o := FireChange(sub, selection, now); o.sub.Some? ==> Early(o.sub.value)
  {
    FlushEarly(sub.(changeTimer := Timer(false, Fired(sub.changeTimer).armed)), selection, now);
  }

  lemma FlushEarly(sub: Subscription, selection: Selection, now: int)
    requires Early(sub)
    ensures var o := Flush(sub, selection, now); o.sub.Some? && Early(o.sub.value)
  {
    RecordEarly(sub, selection);
    assert Patch(ForestOf(selection), []) == Some(ForestOf(selection));
  }

  /** Activation without a push, after something was pushed already: the queue still leads on from there. */
  lemma DeliverFromLast(sub: Subscription, selection: Selection, now: int)
    requires IsOnChange(sub) && !sub.kind.trigger.syncOnStart && !Expired(sub, now) && FromLast(sub)
    ensures var active := Deliver(sub, selection, now, true).sub;
            active.Some? && FromLast(active.value) && active.value.observed == Some(selection)
  {
    RecordFromLast(ScheduleStop(sub, now).sub.value, selection);
  }

  // ---------------------------------------------------------------- all runs

  ghost predicate AllEarly(s: Server) {
    forall sid: nat, id: nat :: Live(s, sid, id) && FirstDue(s.queues, sid, id) ==> Early(Sub(s, sid, id))
  }

  /** A first activation that is due was due before, unless the subscription is new. */
  lemma FirstDueBefore(s: Server, e: Event, t: Server, sid: nat, id: nat)
    requires Inv(s, {}) && t == Step(s, e) && Live(s, sid, id) && FirstDue(t.queues, sid, id)
    ensures FirstDue(s.queues, sid, id)
  {
    if IsWrite(e) {
      WritesLeaveQueues(s, e);
    } else if e.WriteDone? {
      WriteDoneStep(s, e);
      PoppedFirstDue(s, e.sid, sid, id);
    } else if IsSubscriptionRequest(e) {
      RequestFirstDue(s, e, t, sid, id);
    } else if IsDeferred(e) {
      DeferredFirstDue(s, e, t, sid, id);
    } else {
      OthersLeaveQueues(s, e, sid);
    }
  }

  lemma WritesLeaveQueues(s: Server, e: Event)
    requires IsWrite(e)
    ensures Step(s, e).queues == s.queues
  {
  }

  lemma OthersLeaveQueues(s: Server, e: Event, sid: nat)
    requires !IsWrite(e) && !IsSubscriptionRequest(e) && !IsDeferred(e)
    requires QueuesOk(s) && sid in s.sessions
    ensures sid in s.queues && sid in Step(s, e).queues && Step(s, e).queues[sid] == s.queues[sid]
  {
  }

  lemma PoppedFirstDue(s: Server, on: nat, sid: nat, id: nat)
    requires FirstDue(StepWriteDone(s, on).queues, sid, id)
    ensures FirstDue(s.queues, sid, id)
  {
  }

  lemma EnqueuedFirstDue(s: Server, on: nat, c: Callback, sid: nat, id: nat)
    requires FirstDue(Enqueue(s, on, c).queues, sid, id) && c != ActivateNew(id)
    ensures FirstDue(s.queues, sid, id)
  {
  }

  lemma RequestFirstDue(s: Server, e: Event, t: Server, sid: nat, id: nat)
    requires Inv(s, {}) && IsSubscriptionRequest(e)
    requires t == Step(s, e) && Live(s, sid, id) && FirstDue(t.queues, sid, id)
    ensures FirstDue(s.queues, sid, id)
  {
    if e.EstablishSub? {
      EstablishQueues(s, e, t);
      if t.queues != s.queues {
        EnqueuedFirstDue(s, e.sid, ActivateNew(s.nextSub), sid, id);
      }
    } else if e.ModifySub? {
      ModifyQueues(s, e, t);
      if t.queues != s.queues {
        EnqueuedFirstDue(s, e.sid, ActivateModified(e.id), sid, id);
      }
    } else {
      RemovalLeavesQueues(s, e);
    }
  }

  lemma EstablishQueues(s: Server, e: Event, t: Server)
    requires e.EstablishSub? && t == Step(s, e)
    ensures t.queues == s.queues || t.queues == Enqueue(s, e.sid, ActivateNew(s.nextSub)).queues
  {
  }

  lemma ModifyQueues(s: Server, e: Event, t: Server)
    requires e.ModifySub? && t == Step(s, e)
    ensures t.queues == s.queues || t.queues == Enqueue(s, e.sid, ActivateModified(e.id)).queues
  {
  }

  lemma RemovalLeavesQueues(s: Server, e: Event)
    requires e.DeleteSub? || e.ConsoleTerminate?
    ensures Step(s, e).queues == s.queues
  {
  }

  lemma DeferredFirstDue(s: Server, e: Event, t: Server, sid: nat, id: nat)
    requires IsDeferred(e) && !e.WriteDone? && t == Step(s, e) && FirstDue(t.queues, sid, id)
    ensures FirstDue(s.queues, sid, id)
  {
  }

  /** Only the change timer runs for a subscription whose first activation is still due afterwards. */
  lemma TurnBeforeActivation(s: Server, e: Event, t: Server, sid: nat, id: nat)
    requires Inv(s, {}) && t == Step(s, e) && Live(s, sid, id) && TurnOf(s, e, sid, id).Some?
    requires FirstDue(s.queues, sid, id) && FirstDue(t.queues, sid, id)
    ensures TurnOf(s, e, sid, id) == Some(ChangeFires)
  {
    assert SubOk(Sub(s, sid, id), s.wire, s.queues, sid, id in {});
    if e.WriteDone? {
      WriteDoneStep(s, e);
      NotDueAgain(s, sid, id);
    }
  }

  lemma NotDueAgain(s: Server, sid: nat, id: nat)
    requires Inv(s, {}) && HasCallback(s, sid) && s.queues[sid][0].id == id
    ensures !FirstDue(StepWriteDone(s, sid).queues, sid, id)
  {
    PoppedKeepsElsewhere(s, sid, {});
  }

  lemma StepEarly(s: Server, e: Event, t: Server, sid: nat, id: nat)
    requires Inv(s, {}) && t == Step(s, e) && AllEarly(s) && Live(t, sid, id) && FirstDue(t.queues, sid, id)
    ensures Early(Sub(t, sid, id))
  {
    StepBecomes(s, e, t, sid, id);
    if Live(s, sid, id) {
      FirstDueBefore(s, e, t, sid, id);
      assert Early(Sub(s, sid, id));
      BecameEarly(s, e, t, sid, id);
    }
  }

  lemma BecameEarly(s: Server, e: Event, t: Server, sid: nat, id: nat)
    requires Inv(s, {}) && t == Step(s, e) && Live(s, sid, id) && Live(t, sid, id) && Became(s, e, t, sid, id)
    requires FirstDue(s.queues, sid, id) && FirstDue(t.queues, sid, id) && Early(Sub(s, sid, id))
    ensures Early(Sub(t, sid, id))
  {
    var sub := Sub(s, sid, id);
    if Looked(s, t, sid, id) {
      ObserveEarly(sub, Selected(t, sub), s.now);
    } else if Ran(s, e, t, sid, id) {
      TurnBeforeActivation(s, e, t, sid, id);
      FireChangeEarly(sub, Selected(s, sub), s.now);
    }
  }

  lemma StepKeepsEarly(s: Server, e: Event, t: Server)
    requires Inv(s, {}) && t == Step(s, e) && AllEarly(s)
    ensures AllEarly(t)
  {
    forall sid: nat, id: nat | Live(t, sid, id) && FirstDue(t.queues, sid, id) ensures Early(Sub(t, sid, id)) {
      StepEarly(s, e, t, sid, id);
    }
  }

  lemma {:induction false} RunKeepsEarly(states: seq<Server>, events: seq<Event>, k: nat)
    requires IsRun(states, events) && k < |states|
    ensures AllEarly(states[k])
    decreases k
  {
    if k > 0 {
      RunKeepsEarly(states, events, k - 1);
      RunKeepsInv(states, events, k - 1);
      assert states[k - 1 + 1] == Step(states[k - 1], events[k - 1]);
      StepKeepsEarly(states[k - 1], events[k - 1], states[k]);
    }
  }

  // -------------------------------------------------------------- activation

  /** The event runs the first activation of an on-change subscription without sync-on-start. */
  ghost predicate ActivatesQuietly(s: Server, e: Event, sid: nat, id: nat) {
    && e == WriteDone(sid) && HasCallback(s, sid) && s.queues[sid][0] == ActivateNew(id) && Live(s, sid, id)
    && var sub := Sub(s, sid, id); IsOnChange(sub) && !sub.kind.trigger.syncOnStart && !Expired(sub, s.now)
  }

  /** What activation leaves behind: nothing new on the wire, and a selection recorded as sent. */
  lemma ActivatedSub(s: Server, e: Event, t: Server, sid: nat, id: nat)
    requires ActivatesQuietly(s, e, sid, id) && t == Step(s, e)
    ensures var sub := Sub(s, sid, id);
            && Live(t, sid, id) && t.wire == s.wire
            && Deliver(sub, Selected(s, sub), s.now, true).sub == Some(Sub(t, sid, id))
  {
    WriteDoneStep(s, e);
    ActivatedByCallback(s, sid, id, t);
  }

  lemma ActivatedByCallback(s: Server, sid: nat, id: nat, t: Server)
    requires ActivatesQuietly(s, WriteDone(sid), sid, id) && t == StepWriteDone(s, sid)
    ensures var sub := Sub(s, sid, id);
            && Live(t, sid, id) && t.wire == s.wire
            && Deliver(sub, Selected(s, sub), s.now, true).sub == Some(Sub(t, sid, id))
  {
    NothingSent(s.wire);
  }

  lemma StepActivationIff(s: Server, e: Event, t: Server, sid: nat, id: nat)
    requires Inv(s, {}) && AllLed(s) && AllEarly(s) && t == Step(s, e) && ActivatesQuietly(s, e, sid, id)
    ensures Live(t, sid, id) && t.wire == s.wire && Sub(t, sid, id).last.Some?
    ensures var active, selection := Sub(t, sid, id), Selected(s, Sub(s, sid, id));
            Patch(ForestOf(active.last.value), active.pending) == Some(ForestOf(selection))
            <==> LastPushAt(s.wire, id).Some? || FirstsFit(ForestOf(selection), [], active.pending)
  {
    var sub := Sub(s, sid, id);
    ActivatedSub(s, e, t, sid, id);
    assert Led(sub) && Early(sub);
    assert SubOk(sub, s.wire, s.queues, sid, id in {});
    if sub.lastUpdateAt.None? {
      ActivationFitsIff(sub, Selected(s, sub), s.now);
    } else {
      DeliverFromLast(sub, Selected(s, sub), s.now);
    }
  }

  /** In every run, whatever was noticed, pushed or modified before a subscription without sync-on-start is
      activated: activation pushes nothing and records a selection as sent, and a receiver that starts from that
      selection is led to the current one exactly when something was pushed before, or every queued edit that is
      the first at its place fits. */
  lemma ActivationFollowsIff(states: seq<Server>, events: seq<Event>, k: nat, sid: nat, id: nat)
    requires IsRun(states, events) && k < |events| && ActivatesQuietly(states[k], events[k], sid, id)
    ensures Live(states[k + 1], sid, id) && states[k + 1].wire == states[k].wire
    ensures var active, selection := Sub(states[k + 1], sid, id), Selected(states[k], Sub(states[k], sid, id));
            && active.last.Some?
            && (Patch(ForestOf(active.last.value), active.pending) == Some(ForestOf(selection))
                <==> LastPushAt(states[k].wire, id).Some? || FirstsFit(ForestOf(selection), [], active.pending))
  {
    RunKeepsInv(states, events, k);
    RunKeepsLed(states, events, k);
    RunKeepsEarly(states, events, k);
    assert states[k + 1] == Step(states[k], events[k]);
    StepActivationIff(states[k], events[k], states[k + 1], sid, id);
  }
}
