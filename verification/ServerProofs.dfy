/** What every step of the server keeps, and what follows for whole runs. */
module ServerProofs {
  import opened Options
  import opened EditConfig
  import opened YangPush
  import opened ReplicaProofs
  import opened NetconfServer

  // -------------------------------------------------------------- invariant

  /** An activation of `id` is still due on session `sid`. */
  ghost predicate Due(queues: map<nat, seq<Callback>>, sid: nat, id: nat) {
    sid in queues && (ActivateNew(id) in queues[sid] || ActivateModified(id) in queues[sid])
  }

  ghost predicate FirstDue(queues: map<nat, seq<Callback>>, sid: nat, id: nat) {
    sid in queues && ActivateNew(id) in queues[sid]
  }

  /** Callbacks name known ids, and nothing about an id precedes its first activation. */
  ghost predicate QueueOk(queue: seq<Callback>, nextSub: nat) {
    && (forall c :: c in queue ==> c.id < nextSub)
    && (forall i, j :: 0 <= i < j < |queue| && queue[j].ActivateNew? ==> queue[i].id != queue[j].id)
  }

  ghost predicate QueuesOk(s: Server) {
    && (forall sid :: sid in s.queues ==> sid < s.nextSession && QueueOk(s.queues[sid], s.nextSub))
    && (forall sid :: sid in s.sessions ==> sid < s.nextSession && sid in s.queues)
  }

  /** Ids are below the counter, stored under themselves and owned by one session only. */
  ghost predicate Owned(s: Server) {
    && (forall sid: nat, id: nat :: Live(s, sid, id) ==> id < s.nextSub && Sub(s, sid, id).id == id)
    && (forall a: nat, b: nat, id: nat :: Live(s, a, id) && Live(s, b, id) ==> a == b)
    && (forall m :: m in s.wire ==> m.id < s.nextSub)
  }

  ghost predicate Exclusive(s: Server) {
    forall sid :: sid in s.sessions && s.sessions[sid].legacy.Some? ==> s.sessions[sid].subs == map[]
  }

  ghost predicate LocksHeld(s: Server) {
    forall d: Datastore :: s.locks.At(d).Some? ==> s.locks.At(d).value in s.sessions
  }

  ghost predicate SubOk(sub: Subscription, wire: seq<Message>, queues: map<nat, seq<Callback>>, sid: nat,
                        replica: bool) {
    && SubInv(sub, wire, Due(queues, sid, sub.id), replica)
    && (FirstDue(queues, sid, sub.id) ==> !sub.stopTimer.held && !sub.updateTimer.held)
  }

  ghost predicate SubsOk(s: Server, ids: set<nat>) {
    forall sid: nat, id: nat :: Live(s, sid, id) ==> SubOk(Sub(s, sid, id), s.wire, s.queues, sid, id in ids)
  }

  /** The invariant; the receivers of `ids` are in step. */
  ghost predicate Inv(s: Server, ids: set<nat>) {
    Owned(s) && Exclusive(s) && LocksHeld(s) && QueuesOk(s) && SubsOk(s, ids)
  }

  // ------------------------------------------- a step of one subscription

  /** Messages about other subscriptions leave this one's invariant alone. */
  lemma SubOkOnLongerWire(sub: Subscription, wire: seq<Message>, sent: seq<Message>,
                          queues: map<nat, seq<Callback>>, sid: nat, replica: bool)
    requires SubOk(sub, wire, queues, sid, replica)
    requires forall m :: m in sent ==> m.id != sub.id || m.EventRecord?
    ensures SubOk(sub, wire + sent, queues, sid, replica)
  {
    OthersUnaffected(wire, sent, sub.id);
  }

  ghost predicate SubsOkExcept(s: Server, sid: nat, id: nat, ids: set<nat>) {
    forall a: nat, b: nat :: Live(s, a, b) && (a != sid || b != id) ==>
      SubOk(Sub(s, a, b), s.wire, s.queues, a, b in ids)
  }

  /** Putting back a good outcome restores the invariant at that subscription and keeps it elsewhere. */
  lemma SettleKeeps(s: Server, sid: nat, id: nat, o: Outcome, t: Server, ids: set<nat>)
    requires Owned(s) && Exclusive(s) && LocksHeld(s) && QueuesOk(s) && SubsOkExcept(s, sid, id, ids)
    requires Live(s, sid, id) && t == Settle(s, sid, id, o)
    requires Keeps(o, id, s.now, s.wire, Due(s.queues, sid, id), id in ids)
    requires o.sub.Some? && FirstDue(s.queues, sid, id) ==> !o.sub.value.stopTimer.held && !o.sub.value.updateTimer.held
    ensures Inv(t, ids)
  {
    forall a: nat, b: nat | Live(t, a, b)
      ensures Live(s, a, b) && SubOk(Sub(t, a, b), t.wire, t.queues, a, b in ids) && Sub(t, a, b).id == b
    {
      if b != id {
        assert Sub(t, a, b) == Sub(s, a, b);
        SubOkOnLongerWire(Sub(s, a, b), s.wire, o.sent, s.queues, a, b in ids);
      } else {
        assert Live(s, a, b);
        assert a == sid;
      }
    }
  }

  lemma TimerStepKeeps(s: Server, sid: nat, id: nat, o: Outcome, t: Server, ids: set<nat>)
    requires Inv(s, ids) && Live(s, sid, id) && t == Settle(s, sid, id, o)
    requires Keeps(o, id, s.now, s.wire, Due(s.queues, sid, id), id in ids)
    requires o.sub.Some? ==> (o.sub.value.stopTimer.held ==> Sub(s, sid, id).stopTimer.held)
                             && (o.sub.value.updateTimer.held ==> Sub(s, sid, id).updateTimer.held)
    ensures Inv(t, ids)
  {
    assert SubOk(Sub(s, sid, id), s.wire, s.queues, sid, id in ids);
    SettleKeeps(s, sid, id, o, t, ids);
  }

  lemma ChangeTimerKeeps(s: Server, sid: nat, id: nat, t: Server, ids: set<nat>)
    requires Inv(s, ids) && t == StepChangeTimer(s, sid, id)
    ensures Inv(t, ids)
  {
    if Live(s, sid, id) && Sub(s, sid, id).changeTimer.armed > 0 {
      var sub := Sub(s, sid, id);
      assert SubOk(sub, s.wire, s.queues, sid, id in ids);
      FireChangeKeeps(sub, Selected(s, sub), s.now, s.wire, Due(s.queues, sid, id), id in ids);
      TimerStepKeeps(s, sid, id, FireChange(sub, Selected(s, sub), s.now), t, ids);
    }
  }

  lemma UpdateTimerKeeps(s: Server, sid: nat, id: nat, t: Server, ids: set<nat>)
    requires Inv(s, ids) && t == StepUpdateTimer(s, sid, id)
    ensures Inv(t, ids)
  {
    if Live(s, sid, id) && Sub(s, sid, id).updateTimer.armed > 0 {
      var sub := Sub(s, sid, id);
      assert SubOk(sub, s.wire, s.queues, sid, id in ids);
      FireUpdateKeeps(sub, Selected(s, sub), s.now, s.wire, Due(s.queues, sid, id), id in ids);
      TimerStepKeeps(s, sid, id, FireUpdate(sub, Selected(s, sub), s.now), t, ids);
    }
  }

  lemma StopTimerKeeps(s: Server, sid: nat, id: nat, t: Server, ids: set<nat>)
    requires Inv(s, ids) && t == StepStopTimer(s, sid, id)
    ensures Inv(t, ids)
  {
    if Live(s, sid, id) && Sub(s, sid, id).stopTimer.armed > 0 {
      var sub := Sub(s, sid, id);
      assert SubOk(sub, s.wire, s.queues, sid, id in ids);
      FireStopKeeps(sub, s.now, s.wire, Due(s.queues, sid, id), id in ids);
      TimerStepKeeps(s, sid, id, FireStop(sub, s.now), t, ids);
    }
  }

  lemma RemoveKeeps(s: Server, sid: nat, id: nat, t: Server, ids: set<nat>)
    requires Inv(s, ids) && t == StepRemove(s, sid, id)
    ensures Inv(t, ids)
  {
    if Live(s, sid, id) {
      SettleKeeps(s, sid, id, Outcome(None, []), t, ids);
    }
  }

  // -------------------------------------------------------------- broadcasts

  lemma {:induction false} EventRecordsAreEvents(s: Server, audience: seq<nat>)
    ensures forall m :: m in EventRecords(s, audience) ==>
              m.EventRecord? && m.at == s.now && m.id in audience && exists sid :: Hears(s, sid, m.id)
  {
    if audience != [] {
      EventRecordsAreEvents(s, audience[1..]);
    }
  }

  lemma NotifyKeeps(s: Server, audience: seq<nat>, t: Server, ids: set<nat>)
    requires Inv(s, ids) && t == Notify(s, audience)
    ensures Inv(t, ids)
  {
    var sent := EventRecords(s, audience);
    EventRecordsAreEvents(s, audience);
    forall a: nat, b: nat | Live(t, a, b)
      ensures Live(s, a, b) && Sub(t, a, b) == Sub(s, a, b) && SubOk(Sub(t, a, b), t.wire, t.queues, a, b in ids)
    {
      assert Live(s, a, b);
      SubOkOnLongerWire(Sub(s, a, b), s.wire, sent, s.queues, a, b in ids);
    }
  }

  lemma ObserveAllKeeps(s: Server, t: Server, ids: set<nat>)
    requires Inv(s, ids) && t == ObserveAll(s)
    ensures Inv(t, ids)
  {
    forall a: nat, b: nat | Live(t, a, b)
      ensures Live(s, a, b) && Sub(t, a, b).id == b && SubOk(Sub(t, a, b), t.wire, t.queues, a, b in ids)
    {
      assert Live(s, a, b);
      ObservedKeeps(s, a, b, ids);
    }
  }

  lemma ObservedKeeps(s: Server, sid: nat, id: nat, ids: set<nat>)
    requires Inv(s, ids) && Live(s, sid, id)
    ensures Observed(s, Sub(s, sid, id)).Some? ==>
              Observed(s, Sub(s, sid, id)).value.id == id
              && SubOk(Observed(s, Sub(s, sid, id)).value, s.wire, s.queues, sid, id in ids)
  {
    var sub := Sub(s, sid, id);
    assert SubOk(sub, s.wire, s.queues, sid, id in ids);
    ObserveKeeps(sub, Selected(s, sub), s.now, s.wire, Due(s.queues, sid, id), id in ids);
    ObserveLeavesTimers(sub, Selected(s, sub), s.now);
    SilentOutcomeOk(Observe(sub, Selected(s, sub), s.now), sub, s.now, s.wire, s.queues, sid, id in ids);
  }

  lemma ObserveLeavesTimers(sub: Subscription, selection: Selection, now: int)
    ensures var o := Observe(sub, selection, now);
            o.sub.Some? ==> o.sub.value.stopTimer == sub.stopTimer && o.sub.value.updateTimer == sub.updateTimer
  {
  }

  lemma SilentOutcomeOk(o: Outcome, sub: Subscription, now: int, wire: seq<Message>, queues: map<nat, seq<Callback>>,
                        sid: nat, replica: bool)
    requires SubOk(sub, wire, queues, sid, replica)
    requires Keeps(o, sub.id, now, wire, Due(queues, sid, sub.id), replica) && o.sent == []
    requires o.sub.Some? ==> o.sub.value.stopTimer == sub.stopTimer && o.sub.value.updateTimer == sub.updateTimer
    ensures o.sub.Some? ==> o.sub.value.id == sub.id && SubOk(o.sub.value, wire, queues, sid, replica)
  {
    NothingSent(wire);
  }

  /** Two states that differ in contents, locks, revision and clock only. */
  ghost predicate SameSubs(s: Server, t: Server) {
    t.sessions == s.sessions && t.queues == s.queues && t.nextSession == s.nextSession
    && t.nextSub == s.nextSub && t.wire == s.wire
  }

  /** The invariant speaks neither of contents nor of the revision nor of the clock. */
  lemma InvIgnoresContents(s: Server, t: Server, ids: set<nat>)
    requires Inv(s, ids) && SameSubs(s, t) && LocksHeld(t)
    ensures Inv(t, ids)
  {
    forall a: nat, b: nat
      ensures Live(t, a, b) <==> Live(s, a, b)
      ensures Live(t, a, b) ==> SubOk(Sub(t, a, b), t.wire, t.queues, a, b in ids)
    {
    }
  }

  lemma BroadcastKeeps(s: Server, u: Server, audience: seq<nat>, t: Server, ids: set<nat>)
    requires Inv(s, ids) && SameSubs(s, u) && LocksHeld(u) && t == Broadcast(u, audience)
    ensures Inv(t, ids)
  {
    InvIgnoresContents(s, u, ids);
    NotifyKeeps(u, audience, Notify(u, audience), ids);
    ObserveAllKeeps(Notify(u, audience), t, ids);
  }

  lemma ChangedKeeps(s: Server, stores: PerStore<StoredConfig>, audience: seq<nat>, t: Server, ids: set<nat>)
    requires Inv(s, ids) && t == Changed(s.(stores := stores), audience)
    ensures Inv(t, ids)
  {
    BroadcastKeeps(s, Revised(s.(stores := stores)), audience, t, ids);
  }

  // --------------------------------------------------------- write callbacks

  lemma SubOkWhenMoreIsDue(sub: Subscription, wire: seq<Message>, q: map<nat, seq<Callback>>,
                           r: map<nat, seq<Callback>>, sid: nat, replica: bool)
    requires SubOk(sub, wire, q, sid, replica)
    requires Due(q, sid, sub.id) ==> Due(r, sid, sub.id)
    requires FirstDue(r, sid, sub.id) ==> FirstDue(q, sid, sub.id)
    ensures SubOk(sub, wire, r, sid, replica)
  {
  }

  lemma EnqueueKeeps(s: Server, sid: nat, c: Callback, t: Server, ids: set<nat>)
    requires Inv(s, ids) && sid in s.sessions && c.id < s.nextSub && !c.ActivateNew? && t == Enqueue(s, sid, c)
    ensures Inv(t, ids)
  {
    assert t.queues[sid] == s.queues[sid] + [c];
    forall a: nat, b: nat | Live(t, a, b) ensures SubOk(Sub(t, a, b), t.wire, t.queues, a, b in ids) && Live(s, a, b) {
      assert Live(s, a, b) && Sub(t, a, b) == Sub(s, a, b);
      SubOkWhenMoreIsDue(Sub(s, a, b), s.wire, s.queues, t.queues, a, b in ids);
    }
  }

  lemma ModifyStepKeeps(s: Server, sid: nat, id: nat, kind: Kind, stopTime: Option<int>, t: Server, ids: set<nat>)
    requires Inv(s, ids) && t == StepModify(s, sid, id, kind, stopTime)
    ensures Inv(t, ids)
  {
    if CanModify(s, sid, id, kind, stopTime) {
      var sub, c := Sub(s, sid, id), ActivateModified(id);
      var o := Outcome(Some(Modify(sub, kind, stopTime)), []);
      var u := Enqueue(s, sid, c);
      assert SubOk(sub, s.wire, s.queues, sid, id in ids);
      EnqueueKeeps(s, sid, c, u, ids);
      assert u.queues[sid][|s.queues[sid]|] == c;
      ModifyKeeps(sub, kind, stopTime, s.wire, Due(s.queues, sid, id), id in ids);
      NothingSent(s.wire);
      SettleKeeps(u, sid, id, o, t, ids);
    }
  }

  lemma NoQueuedCallback(s: Server, ids: set<nat>)
    requires Inv(s, ids)
    ensures forall sid: nat :: !Due(s.queues, sid, s.nextSub)
    ensures forall m :: m in s.wire ==> m.id != s.nextSub
  {
  }

  lemma EstablishStepKeeps(s: Server, sid: nat, kind: Kind, stopTime: Option<int>, t: Server, ids: set<nat>)
    requires Inv(s, ids) && t == StepEstablish(s, sid, kind, stopTime)
    ensures Inv(t, ids)
  {
    if t.nextSub != s.nextSub {
      var newId := s.nextSub;
      NoQueuedCallback(s, ids);
      EstablishKeeps(newId, kind, stopTime, s.wire, newId in ids);
      assert t.queues[sid] == s.queues[sid] + [ActivateNew(newId)];
      assert t.queues[sid][|s.queues[sid]|] == ActivateNew(newId);
      assert QueuesOk(t);
      forall a: nat, b: nat | Live(t, a, b)
        ensures (b == newId || Live(s, a, b)) && Sub(t, a, b).id == b && b < t.nextSub
                && SubOk(Sub(t, a, b), t.wire, t.queues, a, b in ids)
        ensures b == newId ==> a == sid
      {
        if b == newId {
          assert !Live(s, a, b);
          assert a == sid;
        } else {
          assert Live(s, a, b) && Sub(t, a, b) == Sub(s, a, b);
          SubOkWhenMoreIsDue(Sub(s, a, b), s.wire, s.queues, t.queues, a, b in ids);
        }
      }
    }
  }

  /** The callback about to run empties a queue that the receiver of `id` still needs. */
  ghost predicate LosesEdits(s: Server, e: Event, id: nat) {
    && e.WriteDone? && HasCallback(s, e.sid) && Live(s, e.sid, id)
    && var c, sub := s.queues[e.sid][0], Sub(s, e.sid, id);
    c.id == id && (c.ActivateNew? || c.ActivateModified?)
    && DropsQueue(sub, c.ActivateNew?) && !Expired(sub, s.now)
    && !Replica(s.wire, id).Unsynced? && !QueueHasNoEffect(sub)
  }

  /** The step loses no edits of the subscriptions in question. */
  ghost predicate Spares(s: Server, e: Event, ids: set<nat>) {
    forall id :: id in ids ==> !LosesEdits(s, e, id)
  }

  lemma PoppedKeepsElsewhere(s: Server, sid: nat, ids: set<nat>)
    requires Inv(s, ids) && HasCallback(s, sid)
    ensures var t, c := Popped(s, sid), s.queues[sid][0];
            && Owned(t) && Exclusive(t) && LocksHeld(t) && QueuesOk(t)
            && SubsOkExcept(t, sid, c.id, ids)
            && !FirstDue(t.queues, sid, c.id)
            && (c.ResyncUpdate? || c.Terminate? ==> SubsOk(t, ids))
  {
    var t, q := Popped(s, sid), s.queues[sid];
    assert t.queues[sid] == q[1..];
    assert forall i :: 0 <= i < |q[1..]| ==> q[1..][i] == q[i + 1];
    assert forall d: Callback :: d in q <==> d == q[0] || d in q[1..];
    forall a: nat, b: nat | Live(t, a, b) && (a != sid || b != q[0].id || q[0].ResyncUpdate? || q[0].Terminate?)
      ensures SubOk(Sub(t, a, b), t.wire, t.queues, a, b in ids)
    {
      assert Live(s, a, b) && Sub(t, a, b) == Sub(s, a, b);
      SubOkWhenMoreIsDue(Sub(s, a, b), s.wire, s.queues, t.queues, a, b in ids);
    }
    assert forall a: nat, b: nat :: Live(t, a, b) <==> Live(s, a, b);
  }

  lemma CallbackKeeps(s: Server, sid: nat, ids: set<nat>)
    requires Inv(s, ids) && HasCallback(s, sid)
    requires Spares(s, WriteDone(sid), ids)
    requires var c := s.queues[sid][0]; !c.Terminate? && Live(s, sid, c.id)
    ensures var c := s.queues[sid][0];
            Keeps(CallbackOutcome(s, Sub(s, sid, c.id), c), c.id, s.now, s.wire,
                  Due(Popped(s, sid).queues, sid, c.id), c.id in ids)
  {
    var c := s.queues[sid][0];
    var sub := Sub(s, sid, c.id);
    assert SubOk(sub, s.wire, s.queues, sid, c.id in ids);
    var due := Due(s.queues, sid, c.id);
    match c
    case ActivateNew(_) =>
      DeliverKeeps(sub, Selected(s, sub), s.now, true, s.wire, due, c.id in ids);
    case ActivateModified(_) =>
      DeliverModifiedKeeps(sub, Selected(s, sub), s.now, s.wire, due, c.id in ids);
    case ResyncUpdate(_) =>
      var q := s.queues[sid];
      assert forall d: Callback :: d in q <==> d == q[0] || d in q[1..];
      NothingSent(s.wire);
      if sub.kind.Push? {
        SendUpdateKeeps(sub, Selected(s, sub), s.now, s.wire, due, c.id in ids);
      }
  }

  lemma WriteDoneKeeps(s: Server, sid: nat, t: Server, ids: set<nat>)
    requires Inv(s, ids) && t == StepWriteDone(s, sid)
    requires Spares(s, WriteDone(sid), ids)
    ensures Inv(t, ids)
  {
    if HasCallback(s, sid) {
      var c, u := s.queues[sid][0], Popped(s, sid);
      var owner := CallbackOwner(sid, c);
      PoppedKeepsElsewhere(s, sid, ids);
      if !Live(s, owner, c.id) {
        assert SubsOk(u, ids);
      } else if c.Terminate? {
        SettleKeeps(u, owner, c.id, Outcome(None, []), t, ids);
      } else {
        CallbackKeeps(s, sid, ids);
        SettleKeeps(u, sid, c.id, CallbackOutcome(s, Sub(s, sid, c.id), c), t, ids);
      }
    }
  }

  // ---------------------------------------------------------------- sessions

  /** Subscriptions that survive unchanged, with no less due, keep the invariant. */
  lemma SurvivorsKeep(s: Server, t: Server, ids: set<nat>)
    requires Inv(s, ids) && t.wire == s.wire && t.nextSub == s.nextSub
    requires forall a: nat, b: nat :: Live(t, a, b) ==> Live(s, a, b) && Sub(t, a, b) == Sub(s, a, b)
    requires forall a :: a in s.queues ==> a in t.queues && t.queues[a] == s.queues[a]
    requires forall a :: a in t.queues && a !in s.queues ==> t.queues[a] == []
    ensures Owned(t) && SubsOk(t, ids)
  {
    forall a: nat, b: nat | Live(t, a, b) ensures SubOk(Sub(t, a, b), t.wire, t.queues, a, b in ids) {
      assert Live(s, a, b);
      SubOkWhenMoreIsDue(Sub(s, a, b), s.wire, s.queues, t.queues, a, b in ids);
    }
  }

  lemma OpenKeeps(s: Server, t: Server, ids: set<nat>)
    requires Inv(s, ids) && t == StepOpen(s)
    ensures Inv(t, ids)
  {
    SurvivorsKeep(s, t, ids);
  }

  lemma CloseKeeps(s: Server, sid: nat, t: Server, ids: set<nat>)
    requires Inv(s, ids) && t == StepClose(s, sid)
    ensures Inv(t, ids)
  {
    SurvivorsKeep(s, t, ids);
    if sid in s.sessions {
      forall d: Datastore ensures t.locks.At(d) == Release(s.locks.At(d), sid) {
      }
    }
  }

  lemma LegacyKeeps(s: Server, sid: nat, legacy: Option<Option<int>>, t: Server, ids: set<nat>)
    requires Inv(s, ids) && sid in s.sessions
    requires legacy.Some? ==> s.sessions[sid].subs == map[]
    requires t == s.(sessions := s.sessions[sid := s.sessions[sid].(legacy := legacy)])
    ensures Inv(t, ids)
  {
    SurvivorsKeep(s, t, ids);
  }

  lemma LockedStepKeeps(s: Server, d: Datastore, holder: Option<nat>, t: Server, ids: set<nat>)
    requires Inv(s, ids) && t == s.(locks := s.locks.Put(d, holder))
    requires holder.Some? ==> holder.value in s.sessions
    ensures Inv(t, ids)
  {
    forall other: Datastore
      ensures s.locks.Put(d, holder).At(other) == if other == d then holder else s.locks.At(other)
    {
    }
    InvIgnoresContents(s, t, ids);
  }

  /** RPCs that may write a datastore. */
  predicate IsWrite(e: Event) {
    e.Edit? || e.Copy? || e.DeleteConfig? || e.Commit? || e.Discard? || e.Reboot?
  }

  /** A write is refused and changes nothing, or stores new contents and announces the change. */
  lemma WriteShape(s: Server, e: Event) returns (stores: PerStore<StoredConfig>)
    requires IsWrite(e)
    ensures Step(s, e) == s || Step(s, e) == Changed(s.(stores := stores), e.audience)
  {
    stores := s.stores;
    match e
    case Edit(_, target, fragment, replace, _, _) =>
      var r := ApplyFragment(s.stores.At(target), fragment, replace);
      if r.Ok? {
        ApplyFragmentKeepsGood(s.stores.At(target), fragment, replace);
        stores := s.stores.Put(target, r.value);
      }
    case Copy(_, target, source, _) => stores := s.stores.Put(target, s.stores.At(source));
    case DeleteConfig(_, target, _) => stores := s.stores.Put(target, EmptyConfig());
    case Commit(_, _) => stores := s.stores.Put(Running, s.stores.candidate);
    case Discard(_, _) => stores := s.stores.Put(Candidate, s.stores.running);
    case Reboot(_, _) =>
  }

  lemma WriteKeeps(s: Server, e: Event, t: Server, ids: set<nat>)
    requires Inv(s, ids) && IsWrite(e) && t == Step(s, e)
    ensures Inv(t, ids)
  {
    var stores := WriteShape(s, e);
    if t != s {
      ChangedKeeps(s, stores, e.audience, t, ids);
    }
  }

  /** Every step keeps the invariant, for any set of receivers none of whose useful queues it throws away. */
  lemma StepKeeps(s: Server, e: Event, ids: set<nat>)
    requires Inv(s, ids)
    requires Spares(s, e, ids)
    ensures Inv(Step(s, e), ids)
  {
    if IsWrite(e) {
      WriteKeeps(s, e, Step(s, e), ids);
    } else if IsSubscriptionRequest(e) {
      RequestKeeps(s, e, Step(s, e), ids);
    } else if IsDeferred(e) {
      DeferredKeeps(s, e, Step(s, e), ids);
    } else if IsScheduled(e) {
      ScheduledKeeps(s, e, Step(s, e), ids);
    } else {
      OtherStepKeeps(s, e, Step(s, e), ids);
    }
  }

  /** Requests that take effect on a session's subscriptions at once. */
  predicate IsSubscriptionRequest(e: Event) {
    e.EstablishSub? || e.ModifySub? || e.DeleteSub? || e.ConsoleTerminate?
  }

  /** Requests whose effect waits for the reply to be written, and the callback that brings it. */
  predicate IsDeferred(e: Event) {
    e.KillSub? || e.Resync? || e.WriteDone?
  }

  lemma TerminateKeeps(s: Server, id: nat, t: Server, ids: set<nat>)
    requires Inv(s, ids) && t == StepTerminate(s, id)
    ensures Inv(t, ids)
  {
    if Owner(s, id).Some? {
      RemoveKeeps(s, Owner(s, id).value, id, t, ids);
    }
  }

  lemma KillKeeps(s: Server, sid: nat, id: nat, t: Server, ids: set<nat>)
    requires Inv(s, ids) && t == StepKill(s, sid, id)
    ensures Inv(t, ids)
  {
    if sid in s.sessions && Owner(s, id).Some? {
      EnqueueKeeps(s, sid, Terminate(id, Owner(s, id).value), t, ids);
    }
  }

  lemma ResyncKeeps(s: Server, sid: nat, id: nat, t: Server, ids: set<nat>)
    requires Inv(s, ids) && t == StepResync(s, sid, id)
    ensures Inv(t, ids)
  {
    if t != s {
      EnqueueKeeps(s, sid, ResyncUpdate(id), t, ids);
    }
  }

  lemma RequestKeeps(s: Server, e: Event, t: Server, ids: set<nat>)
    requires Inv(s, ids) && IsSubscriptionRequest(e) && t == Step(s, e)
    ensures Inv(t, ids)
  {
    if e.EstablishSub? {
      EstablishStepKeeps(s, e.sid, e.kind, e.stopTime, t, ids);
    } else if e.ModifySub? {
      ModifyStepKeeps(s, e.sid, e.id, e.kind, e.stopTime, t, ids);
    } else if e.DeleteSub? {
      RemoveKeeps(s, e.sid, e.id, t, ids);
    } else {
      TerminateKeeps(s, e.id, t, ids);
    }
  }

  lemma DeferredKeeps(s: Server, e: Event, t: Server, ids: set<nat>)
    requires Inv(s, ids) && IsDeferred(e) && t == Step(s, e)
    requires Spares(s, e, ids)
    ensures Inv(t, ids)
  {
    if e.KillSub? {
      KillKeeps(s, e.sid, e.id, t, ids);
    } else if e.Resync? {
      ResyncKeeps(s, e.sid, e.id, t, ids);
    } else {
      WriteDoneKeeps(s, e.sid, t, ids);
    }
  }

  /** Timers of subscriptions, and the clock. */
  predicate IsScheduled(e: Event) {
    e.ChangeTimer? || e.UpdateTimer? || e.StopTimer? || e.Clock?
  }

  lemma ScheduledKeeps(s: Server, e: Event, t: Server, ids: set<nat>)
    requires Inv(s, ids) && IsScheduled(e) && t == Step(s, e)
    ensures Inv(t, ids)
  {
    if e.ChangeTimer? {
      ChangeTimerKeeps(s, e.sid, e.id, t, ids);
    } else if e.UpdateTimer? {
      UpdateTimerKeeps(s, e.sid, e.id, t, ids);
    } else if e.StopTimer? {
      StopTimerKeeps(s, e.sid, e.id, t, ids);
    } else {
      InvIgnoresContents(s, t, ids);
    }
  }

  lemma ResetKeeps(s: Server, audience: seq<nat>, t: Server, ids: set<nat>)
    requires Inv(s, ids) && t == StepReset(s, audience)
    ensures Inv(t, ids)
  {
    var c: StoredConfig := InitialConfig();
    BroadcastKeeps(s, s.(stores := PerStore(c, c, c), locks := PerStore(None, None, None), revision := 1), audience, t,
                   ids);
  }

  lemma OtherStepKeeps(s: Server, e: Event, t: Server, ids: set<nat>)
    requires Inv(s, ids) && !IsWrite(e) && !IsSubscriptionRequest(e) && !IsDeferred(e) && !IsScheduled(e)
    requires t == Step(s, e)
    ensures Inv(t, ids)
  {
    if e.Open? {
      OpenKeeps(s, t, ids);
    } else if e.Close? {
      CloseKeeps(s, e.sid, t, ids);
    } else if e.Reset? {
      ResetKeeps(s, e.audience, t, ids);
    } else if e.Announce? {
      NotifyKeeps(s, e.audience, t, ids);
    } else if t != s {
      SmallStepKeeps(s, e, t, ids);
    }
  }

  lemma SmallStepKeeps(s: Server, e: Event, t: Server, ids: set<nat>)
    requires Inv(s, ids) && (e.CreateLegacy? || e.CompleteLegacy? || e.Lock? || e.Unlock?)
    requires t == Step(s, e) && t != s
    ensures Inv(t, ids)
  {
    if e.CreateLegacy? {
      LegacyKeeps(s, e.sid, Some(e.legacyStop), t, ids);
    } else if e.CompleteLegacy? {
      LegacyKeeps(s, e.sid, None, t, ids);
    } else if e.Lock? {
      LockedStepKeeps(s, e.target, Some(e.sid), t, ids);
    } else {
      LockedStepKeeps(s, e.target, None, t, ids);
    }
  }

  // ------------------------------------------------------- exact condition

  /** The receiver of `id` is in step with its subscription, as long as that lives. */
  ghost predicate InStepOf(s: Server, id: nat) {
    forall sid: nat :: Live(s, sid, id) ==> InStep(Sub(s, sid, id), Replica(s.wire, id))
  }

  /** The invariant with one more receiver is the invariant and that receiver in step. */
  lemma InvSplits(s: Server, id: nat)
    ensures Inv(s, {id}) <==> Inv(s, {}) && InStepOf(s, id)
  {
    if Owned(s) && SubsOk(s, {id}) {
      forall a: nat, b: nat | Live(s, a, b)
        ensures SubOk(Sub(s, a, b), s.wire, s.queues, a, false)
        ensures b == id ==> InStep(Sub(s, a, b), Replica(s.wire, b))
      {
        assert SubOk(Sub(s, a, b), s.wire, s.queues, a, b in {id});
      }
    }
    if Owned(s) && SubsOk(s, {}) && InStepOf(s, id) {
      forall a: nat, b: nat | Live(s, a, b) ensures SubOk(Sub(s, a, b), s.wire, s.queues, a, b in {id}) {
        assert SubOk(Sub(s, a, b), s.wire, s.queues, a, b in {});
      }
    }
  }

  lemma WriteDoneStep(s: Server, e: Event)
    requires e.WriteDone?
    ensures Step(s, e) == StepWriteDone(s, e.sid)
  {
  }

  lemma LosingLeavesBehind(s: Server, sid: nat, id: nat, t: Server)
    requires Inv(s, {id}) && LosesEdits(s, WriteDone(sid), id) && t == StepWriteDone(s, sid)
    ensures !InStepOf(t, id)
  {
    var c := s.queues[sid][0];
    var sub := Sub(s, sid, id);
    assert SubOk(sub, s.wire, s.queues, sid, id in {id});
    DroppedLeavesBehind(sub, Selected(s, sub), s.now, c.ActivateNew?, Replica(s.wire, id));
    NothingSent(s.wire);
    assert Live(t, sid, id) && t.wire == s.wire;
  }

  lemma StayingInStep(s: Server, e: Event, id: nat, t: Server)
    requires Inv(s, {id}) && !LosesEdits(s, e, id) && t == Step(s, e)
    ensures InStepOf(t, id)
  {
    StepKeeps(s, e, {id});
    InvSplits(t, id);
  }

  /** A receiver in step stays in step exactly when the step does not lose its edits, whatever happens to others. */
  lemma StepKeepsInStepIff(s: Server, e: Event, id: nat)
    requires Inv(s, {id})
    ensures InStepOf(Step(s, e), id) <==> !LosesEdits(s, e, id)
  {
    if LosesEdits(s, e, id) {
      WriteDoneStep(s, e);
      LosingLeavesBehind(s, e.sid, id, StepWriteDone(s, e.sid));
    } else {
      StayingInStep(s, e, id, Step(s, e));
    }
  }
}
