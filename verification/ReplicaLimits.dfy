/** Where replica agreement stops: what a receiver cannot follow, and exactly when it still can. */
module ReplicaLimits {
  import opened Options
  import opened SelectionDiff
  import opened YangPush
  import opened ReplicaProofs
  import opened PatchTransfer

  /** A receiver is synced exactly when a push-update has been sent. */
  lemma {:induction false} SyncedIffUpdated(wire: seq<Message>, id: nat)
    ensures !Replica(wire, id).Unsynced? <==> exists m :: m in wire && m.PushUpdate? && m.id == id
    decreases |wire|
  {
    if wire != [] {
      var init, last := wire[..|wire| - 1], wire[|wire| - 1];
      SyncedIffUpdated(init, id);
      assert wire == init + [last];
      if last.PushChangeUpdate? && last.id == id {
        assert ApplyPatch(Replica(init, id), last.edits).Unsynced? <==> Replica(init, id).Unsynced?;
      }
    }
  }

  /** Switching to periodic and back, with nothing changing in between, forgets the queue: the subscription ends
      idle and up to date in its own eyes, and the receiver is told nothing. */
  lemma SwitchAndBackForgetsQueue(sub: Subscription, selection: Selection, tick: Kind, t1: int, t2: int)
    requires TimersOwned(sub) && IsOnChange(sub) && sub.observed == Some(selection) && sub.last.Some?
    requires tick.Push? && tick.trigger.Periodic?
    ensures var periodic := DeliverModified(Modify(sub, tick, None), selection, t1);
            periodic.sub.Some? && periodic.sent == []
            && var back := DeliverModified(Modify(periodic.sub.value, sub.kind, None), selection, t2);
               && back.sub.Some? && back.sent == []
               && back.sub.value.pending == [] && back.sub.value.changeTimer.armed == 0
               && back.sub.value.observed == Some(selection) && back.sub.value.last == sub.last
  {
    var asked := Modify(sub, tick, None);
    DeliverPeriodicShape(ClearTimers(asked), selection, t1, false);
    SameForestNoEdits(selection, selection);
  }

  /** One edit of a diff, met again by a receiver that already holds the second selection: a replacement changes
      nothing, a create or a delete is refused. */
  lemma {:induction false} EditMetAgain(a: seq<Node>, b: seq<Node>, e: Edit)
    requires WellFormed(b) && e in Diff(a, b, [])
    ensures EditForest(ForestOf(b), e) == if e.operation.Replace? then Some(ForestOf(b)) else None
    decreases a, 0
  {
    var id := EditComesFrom(Identities(b, Identities(a, [])), a, b, e);
    if BothHaveChildren(a, b, id) {
      var x, y := Lookup(a, id).value, Lookup(b, id).value;
      assert [] + [id] == [id];
      DiffRelative(x.children, y.children, [id]);
      EditInsideMetAgain(x.children, y.children, e, id);
      ForestAt(b, id);
      EditInside(ForestOf(b), TreeOf(y), e);
    } else {
      EditHereMetAgain(a, b, id, e);
    }
  }

  /** An edit below a sibling changes nothing, or is refused, as it does inside that sibling. */
  lemma EditInside(f: Forest, t: Tree, e: Edit)
    requires |e.target| >= 2 && Get(f, e.target[0]) == Some(t)
    ensures EditForest(t.children, Below(e)) == Some(t.children) ==> EditForest(f, e) == Some(f)
    ensures EditForest(t.children, Below(e)) == None ==> EditForest(f, e) == None
  {
    StoredAgain(f, e.target[0], t);
  }

  lemma EditHereMetAgain(a: seq<Node>, b: seq<Node>, id: Identity, e: Edit)
    requires !BothHaveChildren(a, b, id) && e in DiffAt(id, a, b, [])
    ensures EditForest(ForestOf(b), e) == if e.operation.Replace? then Some(ForestOf(b)) else None
  {
    assert [] + [id] == [id];
    ForestAt(b, id);
    assert e.target == [id];
    if e.operation.Replace? {
      StoredAgain(ForestOf(b), id, TreeOf(Lookup(b, id).value));
    }
  }

  lemma {:induction false} EditInsideMetAgain(a: seq<Node>, b: seq<Node>, e: Edit, id: Identity)
    requires WellFormed(b) && e in Prefixed([id], Diff(a, b, []))
    ensures |e.target| >= 2 && e.target[0] == id
    ensures EditForest(ForestOf(b), Below(e)) == if e.operation.Replace? then Some(ForestOf(b)) else None
    decreases a, 1
  {
    var inner := Diff(a, b, []);
    var i :| 0 <= i < |inner| && e == Prefixed([id], inner)[i];
    DiffOverHeads(Identities(b, Identities(a, [])), a, b);
    assert Below(e) == inner[i];
    EditMetAgain(a, b, inner[i]);
  }

  lemma StoredAgain(f: Forest, id: Identity, t: Tree)
    requires Get(f, id) == Some(t)
    ensures Put(f, id, Some(t)) == f
  {
  }

  lemma {:induction false} EditComesFrom(ids: seq<Identity>, a: seq<Node>, b: seq<Node>, e: Edit) returns (id: Identity)
    requires e in DiffOver(ids, a, b, [])
    ensures id in ids && e in DiffAt(id, a, b, [])
    decreases |ids|
  {
    if e in DiffAt(ids[0], a, b, []) {
      id := ids[0];
    } else {
      id := EditComesFrom(ids[1..], a, b, e);
    }
  }

  lemma {:induction false} PatchMetAgain(a: seq<Node>, b: seq<Node>, edits: seq<Edit>)
    requires WellFormed(b) && forall e :: e in edits ==> e in Diff(a, b, [])
    ensures Patch(ForestOf(b), edits) == if forall e :: e in edits ==> e.operation.Replace? then Some(ForestOf(b))
            else None
    decreases |edits|
  {
    if edits != [] {
      EditMetAgain(a, b, edits[0]);
      PatchMetAgain(a, b, edits[1..]);
      assert forall e :: e in edits <==> e == edits[0] || e in edits[1..];
    }
  }

  // ------------------------------------------------------- where a queue leads

  /** There is a forest that the edits turn into the selection. */
  ghost predicate LeadsTo(edits: seq<Edit>, selection: Selection) {
    exists v :: Patch(v, edits) == Some(ForestOf(selection))
  }

  /** The queue leads to the observed selection, from wherever it started; nothing is queued before the first
      look. */
  ghost predicate Led(sub: Subscription) {
    if sub.observed.None? then sub.pending == [] && sub.last.None? else LeadsTo(sub.pending, sub.observed.value)
  }

  lemma EmptyLeads(selection: Selection)
    ensures LeadsTo([], selection)
  {
    assert Patch(ForestOf(selection), []) == Some(ForestOf(selection));
  }

  lemma DiffLeads(before: Selection, after: Selection)
    ensures LeadsTo(Diff(before, after, []), after)
  {
    DiffThenPatch(before, after, Diff(before, after, []));
  }

  lemma LeadsOn(edits: seq<Edit>, before: Selection, after: Selection)
    requires LeadsTo(edits, before)
    ensures LeadsTo(edits + Diff(before, after, []), after)
  {
    var v :| Patch(v, edits) == Some(ForestOf(before));
    PatchAppend(v, edits, Diff(before, after, []));
    DiffThenPatch(before, after, Diff(before, after, []));
    assert Patch(v, edits + Diff(before, after, [])) == Some(ForestOf(after));
  }

  lemma RecordLed(sub: Subscription, selection: Selection)
    requires Led(sub)
    ensures Led(Record(sub, selection)) && LeadsTo(Record(sub, selection).pending, selection)
  {
    if sub.observed.Some? {
      LeadsOn(sub.pending, sub.observed.value, selection);
    } else {
      assert sub.pending + Diff(selection, selection, []) == Diff(selection, selection, []);
      DiffLeads(selection, selection);
    }
  }

  lemma ObserveLed(sub: Subscription, selection: Selection, now: int)
    requires Led(sub)
    ensures var o := Observe(sub, selection, now); o.sub.Some? ==> Led(o.sub.value)
  {
    RecordLed(sub, selection);
  }

  lemma SendUpdateLed(sub: Subscription, selection: Selection, now: int)
    requires Led(sub)
    ensures var o := SendUpdate(sub, selection, now); o.sub.Some? ==> Led(o.sub.value)
  {
    EmptyLeads(selection);
  }

  lemma PatchEditsLead(sub: Subscription, selection: Selection)
    requires LeadsTo(sub.pending, selection)
    ensures LeadsTo(PatchEdits(sub, selection), selection)
  {
    DiffLeads(if sub.last.Some? then sub.last.value else [], selection);
  }

  /** What a change update carries leads to the selection of the moment. */
  lemma FireChangeLed(sub: Subscription, selection: Selection, now: int)
    requires Led(sub)
    ensures var o := FireChange(sub, selection, now);
            && (o.sub.Some? ==> Led(o.sub.value))
            && (forall m :: m in o.sent ==> m.PushChangeUpdate? && LeadsTo(m.edits, selection))
  {
    var ready := sub.(changeTimer := Timer(false, Fired(sub.changeTimer).armed));
    RecordLed(ready, selection);
    PatchEditsLead(Record(ready, selection), selection);
    EmptyLeads(selection);
  }

  lemma TickLed(sub: Subscription, selection: Selection, now: int)
    requires Led(sub)
    ensures var o := Tick(sub, selection, now); o.sub.Some? ==> Led(o.sub.value)
  {
    SendUpdateLed(sub, selection, now);
  }

  lemma DroppedLed(sub: Subscription)
    requires Led(sub)
    ensures Led(sub.(pending := []))
  {
    if sub.observed.Some? {
      EmptyLeads(sub.observed.value);
    }
  }

  lemma DeliverPeriodicLed(sub: Subscription, selection: Selection, now: int, initial: bool)
    requires Led(sub) && IsPeriodic(sub) && !Expired(sub, now)
    ensures var o := DeliverPeriodic(sub, selection, now, initial); o.sub.Some? ==> Led(o.sub.value)
  {
    DroppedLed(sub);
    SendUpdateLed(sub.(pending := []), selection, now);
    DeliverPeriodicShape(sub, selection, now, initial);
  }

  lemma DeliverLed(sub: Subscription, selection: Selection, now: int, initial: bool)
    requires Led(sub)
    ensures var o := Deliver(sub, selection, now, initial); o.sub.Some? ==> Led(o.sub.value)
  {
    if !Expired(sub, now) && sub.kind.Push? {
      var stopping := ScheduleStop(sub, now).sub.value;
      if IsPeriodic(sub) {
        DeliverPeriodicLed(stopping, selection, now, initial);
      } else if initial && sub.kind.trigger.syncOnStart {
        SendUpdateLed(stopping, selection, now);
      } else {
        RecordLed(stopping, selection);
      }
    }
  }

  // ------------------------------------------------------------- early edits

  /** Changes noticed one after the other, each at its own clock reading. */
  function ObserveEach(sub: Subscription, series: seq<(Selection, int)>): Option<Subscription>
    decreases |series|
  {
    if series == [] then Some(sub)
    else
      var o := Observe(sub, series[0].0, series[0].1);
      if o.sub.None? then None else ObserveEach(o.sub.value, series[1..])
  }

  lemma {:induction false} ObserveEachLed(sub: Subscription, series: seq<(Selection, int)>)
    requires Led(sub) && ObserveEach(sub, series).Some?
    ensures var after := ObserveEach(sub, series).value;
            Led(after) && after.kind == sub.kind && after.last == sub.last
    decreases |series|
  {
    if series != [] {
      ObserveLed(sub, series[0].0, series[0].1);
      ObserveEachLed(Observe(sub, series[0].0, series[0].1).sub.value, series[1..]);
    }
  }

  lemma ActivationFitsIff(early: Subscription, selection: Selection, now: int)
    requires IsOnChange(early) && !early.kind.trigger.syncOnStart && !Expired(early, now) && early.last.None?
             && Led(early)
    ensures var active := Deliver(early, selection, now, true).sub;
            && active.Some? && active.value.last == Some(selection) && early.pending <= active.value.pending
            && (Patch(ForestOf(selection), active.value.pending) == Some(ForestOf(selection))
                <==> FirstsFit(ForestOf(selection), [], active.value.pending))
  {
    ActivationQueue(early, selection, now);
    RecordLed(early, selection);
    QueueMetAgainIff(Record(early, selection).pending, selection);
  }

  /** Activation records what it meets, without pushing it. */
  lemma ActivationQueue(early: Subscription, selection: Selection, now: int)
    requires IsOnChange(early) && !early.kind.trigger.syncOnStart && !Expired(early, now) && early.last.None?
    ensures var active := Deliver(early, selection, now, true).sub;
            && active.Some? && active.value.last == Some(selection)
            && active.value.pending == Record(early, selection).pending && early.pending <= active.value.pending
  {
  }

  lemma QueueMetAgainIff(queue: seq<Edit>, selection: Selection)
    requires LeadsTo(queue, selection)
    ensures Patch(ForestOf(selection), queue) == Some(ForestOf(selection))
            <==> FirstsFit(ForestOf(selection), [], queue)
  {
    var v :| Patch(v, queue) == Some(ForestOf(selection));
    MetAgainIff(v, queue, selection);
  }

  /** Without sync-on-start, whatever is noticed before activation stays queued although the selection it leads to
      is recorded as the last one sent. A receiver that starts from that selection can follow exactly when every
      edit that is the first at its place fits it. */
  lemma EarlyEditsFitIff(id: nat, kind: Kind, stopTime: Option<int>, series: seq<(Selection, int)>,
                         selection: Selection, now: int)
    requires kind.Push? && kind.trigger.OnChange? && !kind.trigger.syncOnStart
    requires var early := ObserveEach(Establish(id, kind, stopTime), series); early.Some? && !Expired(early.value, now)
    ensures var early := ObserveEach(Establish(id, kind, stopTime), series).value;
            var active := Deliver(early, selection, now, true).sub;
            && active.Some? && active.value.last == Some(selection) && early.pending <= active.value.pending
            && (Patch(ForestOf(selection), active.value.pending) == Some(ForestOf(selection))
                <==> FirstsFit(ForestOf(selection), [], active.value.pending))
  {
    ObserveEachLed(Establish(id, kind, stopTime), series);
    ActivationFitsIff(ObserveEach(Establish(id, kind, stopTime), series).value, selection, now);
  }

  /** The edits of a single change fit exactly when all of them are replacements. */
  lemma OneChangeFitsIff(early: Selection, selection: Selection)
    ensures FirstsFit(ForestOf(selection), [], Diff(early, selection, []))
            <==> forall e :: e in Diff(early, selection, []) ==> e.operation.Replace?
  {
    var edits := Diff(early, selection, []);
    DiffThenPatch(early, selection, edits);
    MetAgainIff(ForestOf(early), edits, selection);
    PatchMetAgain(early, selection, edits);
  }

  /** But a detour that comes back can be followed, whatever it created or deleted on the way. */
  lemma DetourFits(home: Selection, away: Selection)
    ensures Patch(ForestOf(home), Diff(home, away, []) + Diff(away, home, [])) == Some(ForestOf(home))
  {
    PatchAppend(ForestOf(home), Diff(home, away, []), Diff(away, home, []));
    DiffThenPatch(home, away, Diff(home, away, []));
    DiffThenPatch(away, home, Diff(away, home, []));
  }
}
