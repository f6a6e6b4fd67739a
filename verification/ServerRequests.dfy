/** What clients asked for, read off the requests of a run, and that the server does just that: a subscription has
    the kind and stop time of its last accepted request, and every push carries the datastore that was asked for. */
module ServerRequests {
  import opened Options
  import opened SelectionDiff
  import opened EditConfig
  import opened YangPush
  import opened ReplicaProofs
  import opened NetconfServer
  import opened ServerProofs
  import opened ServerSteps
  import opened ServerRuns
  import opened ServerTheorems
  import opened ServerEffects
  import opened Rendering

  // ---------------------------------------------------------------- requests

  datatype Request = Request(sid: nat, kind: Kind, stopTime: Option<int>)

  /** The event establishes `id`: the session is open, has no RFC 5277 subscription, and the stop time lies ahead. */
  ghost predicate Establishes(s: Server, e: Event, id: nat) {
    && e.EstablishSub? && id == s.nextSub && e.sid in s.sessions && s.sessions[e.sid].legacy.None?
    && (e.stopTime.Some? ==> e.stopTime.value > s.now)
  }

  /** The event modifies `id`: it belongs to the session, keeps its target, and a new stop time lies ahead. */
  ghost predicate Modifies(s: Server, e: Event, id: nat) {
    && e.ModifySub? && e.id == id && e.sid in s.sessions && id in s.sessions[e.sid].subs
    && var sub := s.sessions[e.sid].subs[id];
    && (if sub.kind.Push? then e.kind.Push? && e.kind.store == sub.kind.store else !e.kind.Push?)
    && (e.stopTime != sub.stopTime ==> e.stopTime.Some? && e.stopTime.value > s.now)
  }

  ghost predicate Asks(s: Server, e: Event, id: nat) {
    Establishes(s, e, id) || Modifies(s, e, id)
  }

  /** The last accepted request about `id` among the first `k` events. */
  ghost function Asked(states: seq<Server>, events: seq<Event>, k: nat, id: nat): Option<Request>
    requires k <= |events| <= |states|
    decreases k
  {
    if k == 0 then None
    else if Asks(states[k - 1], events[k - 1], id)
    then Some(Request(events[k - 1].sid, events[k - 1].kind, events[k - 1].stopTime))
    else Asked(states, events, k - 1, id)
  }

  // -------------------------------------------------------------------- steps

  ghost predicate Serves(s: Server, sid: nat, id: nat, kind: Kind, stopTime: Option<int>) {
    Live(s, sid, id) && Sub(s, sid, id).kind == kind && Sub(s, sid, id).stopTime == stopTime
  }

  /** An accepted request is served at once, for its own session, and otherwise the subscription stays as it was
      asked for. */
  ghost predicate ServesAfter(s: Server, e: Event, t: Server, sid: nat, id: nat) {
    if Asks(s, e, id) then Serves(t, e.sid, id, e.kind, e.stopTime) && (Live(t, sid, id) ==> sid == e.sid)
    else Live(t, sid, id) ==> Live(s, sid, id) && Serves(t, sid, id, Sub(s, sid, id).kind, Sub(s, sid, id).stopTime)
  }

  lemma EstablishServes(s: Server, e: Event, t: Server, sid: nat, id: nat)
    requires Inv(s, {}) && e.EstablishSub? && t == StepEstablish(s, e.sid, e.kind, e.stopTime)
    ensures ServesAfter(s, e, t, sid, id)
  {
    assert !Live(s, sid, s.nextSub);
  }

  lemma ModifyServes(s: Server, e: Event, t: Server, sid: nat, id: nat)
    requires Owned(s) && e.ModifySub? && t == StepModify(s, e.sid, e.id, e.kind, e.stopTime)
    ensures ServesAfter(s, e, t, sid, id)
  {
    assert CanModify(s, e.sid, e.id, e.kind, e.stopTime) <==> Modifies(s, e, e.id);
    if Modifies(s, e, e.id) {
      var o := Outcome(Some(Modify(Sub(s, e.sid, e.id), e.kind, e.stopTime)), []);
      SettledSubs(s, e.sid, e.id, o, Settle(s, e.sid, e.id, o), sid, id);
    }
  }

  lemma SettledSubs(s: Server, on: nat, which: nat, o: Outcome, t: Server, sid: nat, id: nat)
    requires Owned(s) && Live(s, on, which) && o.sub.Some? && t == Settle(s, on, which, o)
    ensures Live(t, on, which) && Sub(t, on, which) == o.sub.value
    ensures Live(t, sid, id) <==> Live(s, sid, id)
    ensures Live(t, sid, id) && id == which ==> sid == on
    ensures Live(t, sid, id) && id != which ==> Sub(t, sid, id) == Sub(s, sid, id)
  {
  }

  lemma EstablishStep(s: Server, e: Event)
    requires e.EstablishSub?
    ensures Step(s, e) == StepEstablish(s, e.sid, e.kind, e.stopTime)
  {
  }

  lemma ModifyStep(s: Server, e: Event)
    requires e.ModifySub?
    ensures Step(s, e) == StepModify(s, e.sid, e.id, e.kind, e.stopTime)
  {
  }

  lemma TurnKeepsRequest(sub: Subscription, selection: Selection, now: int, turn: Turn)
    ensures var o := TakeTurn(sub, selection, now, turn);
            o.sub.Some? ==> o.sub.value.kind == sub.kind && o.sub.value.stopTime == sub.stopTime
  {
    if turn.Activation? {
      DeliverKeepsRequest(if turn.initial then sub else ClearTimers(sub), selection, now, turn.initial);
    }
  }

  lemma DeliverKeepsRequest(sub: Subscription, selection: Selection, now: int, initial: bool)
    ensures var o := Deliver(sub, selection, now, initial);
            o.sub.Some? ==> o.sub.value.kind == sub.kind && o.sub.value.stopTime == sub.stopTime
  {
    if !Expired(sub, now) && IsPeriodic(sub) {
      DeliverPeriodicKeepsRequest(ScheduleStop(sub, now).sub.value, selection, now, initial);
    }
  }

  lemma DeliverPeriodicKeepsRequest(sub: Subscription, selection: Selection, now: int, initial: bool)
    requires IsPeriodic(sub) && !Expired(sub, now)
    ensures var o := DeliverPeriodic(sub, selection, now, initial);
            o.sub.Some? ==> o.sub.value.kind == sub.kind && o.sub.value.stopTime == sub.stopTime
  {
  }

  lemma ObserveKeepsRequest(sub: Subscription, selection: Selection, now: int)
    ensures var o := Observe(sub, selection, now);
            o.sub.Some? ==> o.sub.value.kind == sub.kind && o.sub.value.stopTime == sub.stopTime
  {
  }

  lemma OthersKeepRequest(s: Server, e: Event, t: Server, sid: nat, id: nat)
    requires Inv(s, {}) && !e.EstablishSub? && !e.ModifySub? && t == Step(s, e) && Live(t, sid, id)
    ensures ServesAfter(s, e, t, sid, id)
  {
    StepBecomes(s, e, t, sid, id);
    BecameKeepsRequest(s, e, t, sid, id);
  }

  lemma NothingToServe(s: Server, e: Event, t: Server, sid: nat, id: nat)
    requires !e.EstablishSub? && !e.ModifySub? && !Live(t, sid, id)
    ensures ServesAfter(s, e, t, sid, id)
  {
  }

  /** Nothing but an accepted request changes what a subscription is asked to do. */
  lemma OthersServe(s: Server, e: Event, sid: nat, id: nat)
    requires Inv(s, {}) && !e.EstablishSub? && !e.ModifySub?
    ensures ServesAfter(s, e, Step(s, e), sid, id)
  {
    if Live(Step(s, e), sid, id) {
      OthersKeepRequest(s, e, Step(s, e), sid, id);
    } else {
      NothingToServe(s, e, Step(s, e), sid, id);
    }
  }

  lemma LookedKeepsRequest(s: Server, e: Event, t: Server, sid: nat, id: nat)
    requires Live(s, sid, id) && Live(t, sid, id) && Looked(s, t, sid, id) && !e.EstablishSub? && !e.ModifySub?
    ensures ServesAfter(s, e, t, sid, id)
  {
    ObserveKeepsRequest(Sub(s, sid, id), Selected(t, Sub(s, sid, id)), s.now);
  }

  lemma RanKeepsRequest(s: Server, e: Event, t: Server, sid: nat, id: nat)
    requires Live(s, sid, id) && Live(t, sid, id) && Ran(s, e, t, sid, id) && !e.EstablishSub? && !e.ModifySub?
    ensures ServesAfter(s, e, t, sid, id)
  {
    var sub := Sub(s, sid, id);
    TurnKeepsRequest(sub, Selected(s, sub), s.now, TurnOf(s, e, sid, id).value);
  }

  lemma BecameKeepsRequest(s: Server, e: Event, t: Server, sid: nat, id: nat)
    requires Live(t, sid, id) && Became(s, e, t, sid, id) && !e.EstablishSub? && !e.ModifySub?
    ensures ServesAfter(s, e, t, sid, id)
  {
    if Live(s, sid, id) && Looked(s, t, sid, id) {
      LookedKeepsRequest(s, e, t, sid, id);
    } else if Live(s, sid, id) && Ran(s, e, t, sid, id) {
      RanKeepsRequest(s, e, t, sid, id);
    }
  }

  lemma StepServes(s: Server, e: Event, sid: nat, id: nat)
    requires Inv(s, {})
    ensures ServesAfter(s, e, Step(s, e), sid, id)
  {
    if e.EstablishSub? {
      EstablishStep(s, e);
      EstablishServes(s, e, StepEstablish(s, e.sid, e.kind, e.stopTime), sid, id);
    } else if e.ModifySub? {
      ModifyStep(s, e);
      ModifyServes(s, e, StepModify(s, e.sid, e.id, e.kind, e.stopTime), sid, id);
    } else {
      OthersServe(s, e, sid, id);
    }
  }

  // --------------------------------------------------------------------- runs

  /** In every state of every run, a live subscription belongs to the session that asked for it, and has the kind
      and the stop time of its last accepted request. */
  lemma {:induction false} ServedAsAsked(states: seq<Server>, events: seq<Event>, k: nat, sid: nat, id: nat)
    requires IsRun(states, events) && k < |states| && Live(states[k], sid, id)
    ensures Asked(states, events, k, id)
            == Some(Request(sid, Sub(states[k], sid, id).kind, Sub(states[k], sid, id).stopTime))
    decreases k
  {
    if k > 0 {
      RunKeepsInv(states, events, k - 1);
      assert states[k - 1 + 1] == Step(states[k - 1], events[k - 1]);
      StepServes(states[k - 1], events[k - 1], sid, id);
      if !Asks(states[k - 1], events[k - 1], id) {
        ServedAsAsked(states, events, k - 1, sid, id);
      }
    }
  }

  /** An accepted request takes effect with its own step. */
  lemma RequestTakesEffect(states: seq<Server>, events: seq<Event>, k: nat, id: nat)
    requires IsRun(states, events) && k < |events| && Asks(states[k], events[k], id)
    ensures events[k].sid in states[k + 1].sessions && id in states[k + 1].sessions[events[k].sid].subs
    ensures var sub := states[k + 1].sessions[events[k].sid].subs[id];
            sub.kind == events[k].kind && sub.stopTime == events[k].stopTime
  {
    RunKeepsInv(states, events, k);
    StepServes(states[k], events[k], events[k].sid, id);
  }

  ghost predicate Exists(s: Server, id: nat) {
    exists sid: nat :: Live(s, sid, id)
  }

  /** The request about a subscription is one that the server refuses. */
  ghost predicate Refused(s: Server, e: Event) {
    match e
    case EstablishSub(_, _, _) => !Establishes(s, e, s.nextSub)
    case ModifySub(_, id, _, _) => !Modifies(s, e, id)
    case DeleteSub(sid, id) => !Live(s, sid, id)
    case KillSub(sid, id) => sid !in s.sessions || !Exists(s, id)
    case Resync(sid, id) =>
      !(Live(s, sid, id) && Sub(s, sid, id).kind.Push? && Sub(s, sid, id).kind.trigger.OnChange?)
    case ConsoleTerminate(id) => !Exists(s, id)
    case _ => false
  }

  /** A request that is refused changes nothing at all. */
  lemma RefusedChangesNothing(s: Server, e: Event)
    requires Refused(s, e)
    ensures Step(s, e) == s
  {
  }

  // ------------------------------------------------------------------- pushes

  /** What a client sees of a datastore through its filter. */
  ghost function Viewed(s: Server, store: Datastore, filter: Filter): Selection {
    RenderWellFormedIff(Contents(s, store));
    filter(Render(Contents(s, store)))
  }

  lemma SelectedIsViewed(s: Server, sub: Subscription)
    requires sub.kind.Push?
    ensures Selected(s, sub) == Viewed(s, sub.kind.store, sub.kind.filter)
  {
  }

  /** Every push answers a request: at step `k` the subscription was asked for as a push, and what it is about is the
      datastore of that request, seen through its filter. */
  lemma PushAnswersRequest(states: seq<Server>, events: seq<Event>, k: nat, m: Message)
    requires IsRun(states, events) && SentAt(states, events, k, m) && !m.EventRecord?
    ensures var r := Asked(states, events, k, m.id);
            && r.Some? && r.value.kind.Push? && Live(states[k], r.value.sid, m.id)
            && Selected(states[k], Sub(states[k], r.value.sid, m.id))
               == Viewed(states[k], r.value.kind.store, r.value.kind.filter)
  {
    RunSends(states, events, k);
    assert Justified(states[k], events[k], states[k + 1].wire, m);
    var sid: nat :| Live(states[k], sid, m.id)
                    && JustifiedBy(states[k], events[k], states[k + 1].wire, m, sid, Sub(states[k], sid, m.id));
    ServedAsAsked(states, events, k, sid, m.id);
    SelectedIsViewed(states[k], Sub(states[k], sid, m.id));
  }

  /** A push-update carries the datastore its subscription was asked for, as it is at that moment, through the filter
      last asked for, and the receiver then holds just that. A change update takes a synced receiver to the same, if
      every loss of its own edits has been healed before. */
  lemma PushesCarryDatastore(states: seq<Server>, events: seq<Event>, k: nat, m: Message)
    requires IsRun(states, events) && SentAt(states, events, k, m) && !m.EventRecord?
    requires m.PushChangeUpdate? ==> Intact(states, events, k, m.id)
    ensures var r, copy := Asked(states, events, k, m.id), Replica(states[k + 1].wire, m.id);
            && r.Some? && r.value.kind.Push?
            && var view := Viewed(states[k], r.value.kind.store, r.value.kind.filter);
            && (m.PushUpdate? ==> m.contents == view && copy == Holding(ForestOf(view)))
            && (m.PushChangeUpdate? ==> copy == Holding(ForestOf(view)) || copy == Unsynced)
  {
    PushAnswersRequest(states, events, k, m);
    var r := Asked(states, events, k, m.id).value;
    ReplicaAgreesAtEverySend(states, events, k, m);
    RunKeepsInv(states, events, k);
    if m.PushUpdate? {
      var sid := UpdateSendOf(states, events, k, m);
      assert sid == r.sid;
      AfterUpdate(states[k].wire, m);
    }
  }

  ghost predicate ShowsAll(filter: Filter) {
    forall v: Selection :: filter(v) == v
  }

  lemma WholeView(s: Server, store: Datastore, filter: Filter)
    requires ShowsAll(filter)
    ensures Viewed(s, store, filter) == Render(Contents(s, store))
  {
    RenderWellFormedIff(Contents(s, store));
    var v: Selection := Render(Contents(s, store));
    assert filter(v) == v;
  }

  /** What a copy says about a configuration: every system field, and under each name every field of the interface
      stored there, or nothing. */
  ghost predicate Tells(copy: Copy, c: Config, name: string) {
    && copy.Holding? && ReadSystem(copy.forest) == Some(c.system)
    && (forall i :: i in c.interfaces && i.name == name ==> ReadInterface(copy.forest, name) == Some(i))
    && ((forall i :: i in c.interfaces ==> i.name != name) ==> ReadInterface(copy.forest, name) == None)
  }

  lemma RenderedTells(c: StoredConfig, copy: Copy, name: string)
    requires copy == Holding(ForestOf(Render(c)))
    ensures Tells(copy, c, name)
  {
    SystemReads(c);
    InterfacesRead(c, name);
  }

  /** A receiver with the whole datastore in view reads every field of the configuration out of its copy. */
  lemma ReceiverReadsConfiguration(states: seq<Server>, events: seq<Event>, k: nat, m: Message, name: string)
    requires IsRun(states, events) && SentAt(states, events, k, m) && !m.EventRecord?
    requires m.PushChangeUpdate? ==> Intact(states, events, k, m.id)
    ensures var r, copy := Asked(states, events, k, m.id), Replica(states[k + 1].wire, m.id);
            && r.Some? && r.value.kind.Push?
            && (ShowsAll(r.value.kind.filter) && copy != Unsynced ==>
                  Tells(copy, Contents(states[k], r.value.kind.store), name))
  {
    PushesCarryDatastore(states, events, k, m);
    var kind := Asked(states, events, k, m.id).value.kind;
    if ShowsAll(kind.filter) && Replica(states[k + 1].wire, m.id) != Unsynced {
      WholeView(states[k], kind.store, kind.filter);
      RenderedTells(Contents(states[k], kind.store), Replica(states[k + 1].wire, m.id), name);
    }
  }
}
