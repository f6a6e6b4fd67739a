/** The promises of the NETCONF server, stated over every run. */
module ServerTheorems {
  import opened Options
  import opened SelectionDiff
  import opened EditConfig
  import opened YangPush
  import opened ReplicaProofs
  import opened NetconfServer
  import opened ServerProofs
  import opened ServerRuns

  /** Step `k` of the run puts `m` on the wire. */
  ghost predicate SentAt(states: seq<Server>, events: seq<Event>, k: nat, m: Message)
    requires IsRun(states, events)
  {
    k < |events| && |states[k].wire| <= |states[k + 1].wire| && m in states[k + 1].wire[|states[k].wire|..]
  }

  /** The wire only grows, and every addition is justified by a live, unexpired subscription. */
  lemma RunSends(states: seq<Server>, events: seq<Event>, k: nat)
    requires IsRun(states, events) && k < |events|
    ensures SendsJustified(states[k], events[k], states[k + 1].wire)
  {
    RunKeepsInv(states, events, k);
    StepSends(states[k], events[k]);
  }

  // ---------------------------------------------------------------- replica

  /** At every push the receiver, once synced, holds exactly the filtered selection of that moment: after a
      push-update always, after a change update if every loss of its own edits has been healed before. */
  lemma ReplicaAgreesAtEverySend(states: seq<Server>, events: seq<Event>, k: nat, m: Message)
    requires IsRun(states, events) && SentAt(states, events, k, m) && !m.EventRecord?
    requires m.PushChangeUpdate? ==> Intact(states, events, k, m.id)
    ensures exists sid: nat :: Live(states[k], sid, m.id)
              && var copy := Replica(states[k + 1].wire, m.id);
                 (copy == Holding(ForestOf(Selected(states[k], Sub(states[k], sid, m.id))))
                  || (copy.Unsynced? && m.PushChangeUpdate?))
  {
    RunKeepsInv(states, events, k);
    if m.PushUpdate? {
      var sid := UpdateSendOf(states, events, k, m);
      AfterUpdate(states[k].wire, m);
    } else {
      RunKeepsInStep(states, events, k, m.id);
      var sid := ChangeSendOf(states, events, k, m);
      ChangeSendAgrees(states[k], sid, m.id, m);
    }
  }

  /** A push-update carries the selection of its live subscription, and is the only message of its step. */
  lemma UpdateSendOf(states: seq<Server>, events: seq<Event>, k: nat, m: Message) returns (sid: nat)
    requires IsRun(states, events) && SentAt(states, events, k, m) && m.PushUpdate?
    ensures Live(states[k], sid, m.id) && m.contents == Selected(states[k], Sub(states[k], sid, m.id))
    ensures states[k + 1].wire == states[k].wire + [m]
  {
    RunSends(states, events, k);
    assert Justified(states[k], events[k], states[k + 1].wire, m);
    sid :| Live(states[k], sid, m.id)
           && JustifiedBy(states[k], events[k], states[k + 1].wire, m, sid, Sub(states[k], sid, m.id));
  }

  /** A change update comes from the change timer of its live subscription, and is the only message of its step. */
  lemma ChangeSendOf(states: seq<Server>, events: seq<Event>, k: nat, m: Message) returns (sid: nat)
    requires IsRun(states, events) && SentAt(states, events, k, m) && m.PushChangeUpdate?
    ensures Live(states[k], sid, m.id) && Sub(states[k], sid, m.id).changeTimer.armed > 0
    ensures IsChangeOf(m, Sub(states[k], sid, m.id), states[k].now)
    ensures StepChangeTimer(states[k], sid, m.id).wire == states[k + 1].wire == states[k].wire + [m]
  {
    RunSends(states, events, k);
    sid := JustifiedChange(states[k], events[k], states[k + 1].wire, m);
    ChangeTimerStep(states[k], events[k]);
  }

  lemma JustifiedChange(s: Server, e: Event, after: seq<Message>, m: Message) returns (sid: nat)
    requires SendsJustified(s, e, after) && m in after[|s.wire|..] && m.PushChangeUpdate?
    ensures e == ChangeTimer(sid, m.id) && Live(s, sid, m.id) && Sub(s, sid, m.id).changeTimer.armed > 0
    ensures IsChangeOf(m, Sub(s, sid, m.id), s.now) && after == s.wire + [m]
  {
    assert Justified(s, e, after, m);
    sid :| Live(s, sid, m.id) && JustifiedBy(s, e, after, m, sid, Sub(s, sid, m.id));
  }

  lemma ChangeTimerStep(s: Server, e: Event)
    requires e.ChangeTimer?
    ensures Step(s, e) == StepChangeTimer(s, e.sid, e.id)
  {
  }

  lemma AddedIsSuffix(wire: seq<Message>, sent: seq<Message>)
    ensures (wire + sent)[|wire|..] == sent
  {
  }

  lemma FiredChangeAgrees(sub: Subscription, selection: Selection, now: int, wire: seq<Message>, due: bool, m: Message)
    requires SubInv(sub, wire, due, true) && sub.changeTimer.armed > 0
    requires FireChange(sub, selection, now).sent == [m]
    ensures Replica(wire + [m], sub.id) == if Replica(wire, sub.id).Unsynced? then Unsynced
            else Holding(ForestOf(selection))
  {
    FireChangeKeeps(sub, selection, now, wire, due, true);
    FireChangeSends(sub, selection, now);
    AfterChange(wire, m);
  }

  lemma ChangeSendAgrees(s: Server, sid: nat, id: nat, m: Message)
    requires Owned(s) && SubsOk(s, {id}) && Live(s, sid, id) && Sub(s, sid, id).changeTimer.armed > 0
    requires StepChangeTimer(s, sid, id).wire == s.wire + [m]
    ensures Replica(s.wire + [m], id) ==
            if Replica(s.wire, id).Unsynced? then Unsynced else Holding(ForestOf(Selected(s, Sub(s, sid, id))))
  {
    var sub := Sub(s, sid, id);
    assert SubOk(sub, s.wire, s.queues, sid, id in {id}) && sub.id == id;
    var sent := FireChange(sub, Selected(s, sub), s.now).sent;
    AddedIsSuffix(s.wire, sent);
    AddedIsSuffix(s.wire, [m]);
    FiredChangeAgrees(sub, Selected(s, sub), s.now, s.wire, Due(s.queues, sid, id), m);
  }

  /** Patch ids count the change updates since the last on-change push-update, modulo 2^32. */
  lemma PatchIdsCountUp(states: seq<Server>, events: seq<Event>, k: nat, m: Message)
    requires IsRun(states, events) && SentAt(states, events, k, m) && m.PushChangeUpdate?
    ensures m.patch == ChangesSinceSync(states[k].wire, m.id) % 0x1_0000_0000
  {
    RunKeepsInv(states, events, k);
    var sid := ChangeSendOf(states, events, k, m);
    assert SubOk(Sub(states[k], sid, m.id), states[k].wire, states[k].queues, sid, sid in {});
  }

  // ----------------------------------------------------------------- timers

  /** A live on-change subscription with queued edits has exactly one armed change timer, or an activation
      callback is still due; a timer is never armed twice. */
  lemma NoLostWakeup(states: seq<Server>, events: seq<Event>, k: nat, sid: nat, id: nat)
    requires IsRun(states, events) && k < |states| && Live(states[k], sid, id)
    ensures var sub := Sub(states[k], sid, id);
            && (IsOnChange(sub) && sub.pending != [] ==> sub.changeTimer.armed == 1 || Due(states[k].queues, sid, id))
            && (sub.changeTimer.armed > 0 ==> IsOnChange(sub) && sub.pending != [])
            && sub.changeTimer.armed <= 1 && sub.updateTimer.armed <= 1 && sub.stopTimer.armed <= 1
  {
    RunKeepsInv(states, events, k);
    assert SubOk(Sub(states[k], sid, id), states[k].wire, states[k].queues, sid, sid in {});
  }

  /** A change update follows the previous push of its subscription by at least the current dampening period. */
  lemma DampeningRespected(states: seq<Server>, events: seq<Event>, k: nat, m: Message)
    requires IsRun(states, events) && SentAt(states, events, k, m) && m.PushChangeUpdate?
    ensures exists sid: nat :: Live(states[k], sid, m.id) && IsOnChange(Sub(states[k], sid, m.id))
              && var previous := LastPushAt(states[k].wire, m.id);
                 previous.Some? ==> m.at >= previous.value + Sub(states[k], sid, m.id).kind.trigger.dampening
  {
    RunKeepsInv(states, events, k);
    var sid := ChangeSendOf(states, events, k, m);
    assert SubOk(Sub(states[k], sid, m.id), states[k].wire, states[k].queues, sid, sid in {});
  }

  // -------------------------------------------------------------- ownership

  /** A session has an RFC 5277 subscription or dynamic ones, never both, and a dynamic id has one owner. */
  lemma SubscriptionOwnership(states: seq<Server>, events: seq<Event>, k: nat)
    requires IsRun(states, events) && k < |states|
    ensures forall sid :: sid in states[k].sessions && states[k].sessions[sid].legacy.Some? ==>
            states[k].sessions[sid].subs == map[]
    ensures forall a: nat, b: nat, id: nat :: Live(states[k], a, id) && Live(states[k], b, id) ==> a == b
    ensures forall a: nat, id: nat :: Live(states[k], a, id) ==> id < states[k].nextSub
  {
    RunKeepsInv(states, events, k);
  }

  ghost predicate Ended(s: Server, id: nat) {
    id < s.nextSub && forall sid: nat :: !Live(s, sid, id)
  }

  /** The step brings no subscription to life, and takes no id. */
  ghost predicate CreatesNothing(s: Server, e: Event) {
    s.nextSub == Step(s, e).nextSub && forall a: nat, b: nat :: Live(Step(s, e), a, b) ==> Live(s, a, b)
  }

  lemma WriteCreatesNothing(s: Server, e: Event)
    requires IsWrite(e)
    ensures CreatesNothing(s, e)
  {
  }

  lemma DeferredCreatesNothing(s: Server, e: Event)
    requires IsDeferred(e)
    ensures CreatesNothing(s, e)
  {
  }

  lemma ScheduledCreatesNothing(s: Server, e: Event)
    requires IsScheduled(e)
    ensures CreatesNothing(s, e)
  {
  }

  lemma OtherCreatesNothing(s: Server, e: Event)
    requires !IsWrite(e) && !IsSubscriptionRequest(e) && !IsDeferred(e) && !IsScheduled(e)
    ensures CreatesNothing(s, e)
  {
  }

  lemma RequestCreates(s: Server, e: Event, a: nat, b: nat)
    requires IsSubscriptionRequest(e)
    ensures Live(Step(s, e), a, b) ==> Live(s, a, b) || (e.EstablishSub? && b == s.nextSub)
    ensures s.nextSub <= Step(s, e).nextSub
  {
  }

  /** A step brings no subscription to life except the one it establishes. */
  lemma OnlyEstablishCreates(s: Server, e: Event, a: nat, b: nat)
    ensures Live(Step(s, e), a, b) ==> Live(s, a, b) || (e.EstablishSub? && b == s.nextSub)
    ensures s.nextSub <= Step(s, e).nextSub
  {
    if IsWrite(e) {
      WriteCreatesNothing(s, e);
    } else if IsSubscriptionRequest(e) {
      RequestCreates(s, e, a, b);
    } else if IsDeferred(e) {
      DeferredCreatesNothing(s, e);
    } else if IsScheduled(e) {
      ScheduledCreatesNothing(s, e);
    } else {
      OtherCreatesNothing(s, e);
    }
  }

  /** An id that has ended, by delete, kill, stop time or session close, never comes back. */
  lemma {:induction false} EndedStaysEnded(states: seq<Server>, events: seq<Event>, j: nat, k: nat, id: nat)
    requires IsRun(states, events) && j <= k < |states| && Ended(states[j], id)
    ensures Ended(states[k], id)
    decreases k
  {
    if j < k {
      EndedStaysEnded(states, events, j, k - 1, id);
      var s, e := states[k - 1], events[k - 1];
      assert states[k - 1 + 1] == Step(s, e);
      OnlyEstablishCreates(s, e, 0, 0);
      forall sid: nat ensures !Live(Step(s, e), sid, id) {
        OnlyEstablishCreates(s, e, sid, id);
      }
    }
  }

  /** After it has ended, nothing is sent for an id. */
  lemma EndedIsSilent(states: seq<Server>, events: seq<Event>, j: nat, k: nat, m: Message)
    requires IsRun(states, events) && j <= k < |events| && Ended(states[j], m.id)
    ensures !SentAt(states, events, k, m)
  {
    EndedStaysEnded(states, events, j, k, m.id);
    RunSends(states, events, k);
  }

  /** Nothing is sent at or past the stop time. */
  lemma NothingSentPastStopTime(states: seq<Server>, events: seq<Event>, k: nat, m: Message)
    requires IsRun(states, events) && SentAt(states, events, k, m)
    ensures m.at == states[k].now
    ensures exists sid: nat :: Live(states[k], sid, m.id)
              && (Sub(states[k], sid, m.id).stopTime.Some? ==> m.at < Sub(states[k], sid, m.id).stopTime.value)
  {
    RunSends(states, events, k);
    assert Justified(states[k], events[k], states[k + 1].wire, m);
  }

  // ------------------------------------------------------------------ locks

  /** Every lock holder is an open session. */
  lemma LockHoldersAreOpen(states: seq<Server>, events: seq<Event>, k: nat, d: Datastore)
    requires IsRun(states, events) && k < |states|
    ensures states[k].locks.At(d).Some? ==> states[k].locks.At(d).value in states[k].sessions
  {
    RunKeepsInv(states, events, k);
  }

  /** The session was open once and is no more. */
  ghost predicate Closed(s: Server, sid: nat) {
    sid < s.nextSession && sid !in s.sessions
  }

  lemma SessionIdsGrow(s: Server, e: Event, sid: nat)
    requires Closed(s, sid)
    ensures Closed(Step(s, e), sid)
  {
    if IsWrite(e) {
      WritesOpenNothing(s, e, sid);
    } else if IsSubscriptionRequest(e) || IsDeferred(e) {
      RequestsOpenNothing(s, e, sid);
    } else if IsScheduled(e) {
      TimersOpenNothing(s, e, sid);
    }
  }

  lemma WritesOpenNothing(s: Server, e: Event, sid: nat)
    requires IsWrite(e) && Closed(s, sid)
    ensures Closed(Step(s, e), sid)
  {
  }

  lemma RequestsOpenNothing(s: Server, e: Event, sid: nat)
    requires (IsSubscriptionRequest(e) || IsDeferred(e)) && Closed(s, sid)
    ensures Closed(Step(s, e), sid)
  {
  }

  lemma TimersOpenNothing(s: Server, e: Event, sid: nat)
    requires IsScheduled(e) && Closed(s, sid)
    ensures Closed(Step(s, e), sid)
  {
  }

  lemma {:induction false} ClosedStaysClosed(states: seq<Server>, events: seq<Event>, j: nat, k: nat, sid: nat)
    requires IsRun(states, events) && j <= k < |states| && Closed(states[j], sid)
    ensures Closed(states[k], sid)
    decreases k
  {
    if j < k {
      ClosedStaysClosed(states, events, j, k - 1, sid);
      assert states[k - 1 + 1] == Step(states[k - 1], events[k - 1]);
      SessionIdsGrow(states[k - 1], events[k - 1], sid);
    }
  }

  /** From its close on, in every run, a session never again is open, holds a lock or owns a subscription. */
  lemma CloseIsFinal(states: seq<Server>, events: seq<Event>, j: nat, k: nat, sid: nat, d: Datastore, id: nat)
    requires IsRun(states, events) && j < k < |states| && events[j] == Close(sid) && sid in states[j].sessions
    ensures sid !in states[k].sessions && states[k].locks.At(d) != Some(sid) && !Live(states[k], sid, id)
  {
    RunKeepsInv(states, events, j);
    RunKeepsInv(states, events, k);
    assert Closed(states[j + 1], sid);
    ClosedStaysClosed(states, events, j + 1, k, sid);
  }

  lemma OthersLeaveStores(s: Server, e: Event)
    requires !IsWrite(e) && !e.Reset?
    ensures Step(s, e).stores == s.stores
  {
  }

  lemma EditsWhereAllowed(s: Server, e: Event, d: Datastore)
    requires e.Edit? && Step(s, e).stores.At(d) != s.stores.At(d)
    ensures Writable(s, d, e.sid)
  {
  }

  lemma WritesWhereAllowed(s: Server, e: Event, d: Datastore)
    requires IsWrite(e) && !e.Edit? && Step(s, e).stores.At(d) != s.stores.At(d)
    ensures Writable(s, d, e.sid)
  {
  }

  /** While a session holds a datastore, only that session changes it. */
  lemma OnlyHolderChanges(s: Server, e: Event, d: Datastore, holder: nat)
    requires s.locks.At(d) == Some(holder) && !e.Reset?
    requires Step(s, e).stores.At(d) != s.stores.At(d)
    ensures IsWrite(e) && e.sid == holder
  {
    if e.Edit? {
      EditsWhereAllowed(s, e, d);
    } else if IsWrite(e) {
      WritesWhereAllowed(s, e, d);
    } else {
      OthersLeaveStores(s, e);
    }
  }

  /** A lock is given up only by its holder's unlock, by closing the holder, or by a reset. */
  lemma LockLeavesOnlyThroughHolder(s: Server, e: Event, d: Datastore, holder: nat)
    requires s.locks.At(d) == Some(holder) && !e.Reset?
    requires Step(s, e).locks.At(d) != Some(holder)
    ensures e == Unlock(holder, d) || e == Close(holder)
  {
    if IsWrite(e) {
      WritesLeaveLocks(s, e);
    } else if IsSubscriptionRequest(e) || IsDeferred(e) {
      RequestsLeaveLocks(s, e);
    } else if !e.Lock? && !e.Unlock? && !e.Close? {
      OthersLeaveLocks(s, e);
    }
  }

  lemma WritesLeaveLocks(s: Server, e: Event)
    requires IsWrite(e)
    ensures Step(s, e).locks == s.locks
  {
  }

  lemma RequestsLeaveLocks(s: Server, e: Event)
    requires IsSubscriptionRequest(e) || IsDeferred(e)
    ensures Step(s, e).locks == s.locks
  {
  }

  lemma OthersLeaveLocks(s: Server, e: Event)
    requires !IsWrite(e) && !IsSubscriptionRequest(e) && !IsDeferred(e)
    requires !e.Lock? && !e.Unlock? && !e.Close? && !e.Reset?
    ensures Step(s, e).locks == s.locks
  {
  }

  /** A write is refused and changes nothing at all, or raises the revision by exactly one. */
  lemma WriteRaisesRevisionByOne(s: Server, e: Event)
    requires IsWrite(e)
    ensures Step(s, e) == s || Step(s, e).revision == s.revision + 1
  {
  }

  /** An edit changes nothing exactly when it is unauthorised, locked out, refused or test-only. */
  lemma EditChangesNothingIff(s: Server, sid: nat, target: Datastore, fragment: Fragment, replace: bool,
                              testOnly: bool, audience: seq<nat>)
    ensures Step(s, Event.Edit(sid, target, fragment, replace, testOnly, audience)) == s <==>
            !(sid in s.sessions && Writable(s, target, sid)
              && ApplyFragment(s.stores.At(target), fragment, replace).Ok? && !testOnly)
  {
  }
}
