/** A run in which a receiver is left behind: a client watches the candidate, the candidate is deleted, the client
    switches to a periodic trigger before the change is pushed, and back again. */
module LostEditRun {
  import opened Options
  import opened SelectionDiff
  import opened EditConfig
  import opened YangPush
  import opened ReplicaProofs
  import opened NetconfServer
  import opened ServerProofs
  import opened ServerRuns
  import opened Scenes

  function Story(): seq<Event> {
    [Event.Open, EstablishSub(SID, Watching(), None), WriteDone(SID), DeleteConfig(SID, Candidate, []),
     ModifySub(SID, ID, Polling(), None), WriteDone(SID), ModifySub(SID, ID, Watching(), None), WriteDone(SID),
     Event.Edit(SID, Candidate, Naming("edge"), false, false, []), ChangeTimer(SID, ID)]
  }

  // ------------------------------------------------------ the patch does not suit

  lemma {:induction false} UntouchedSlot(f: Forest, edits: seq<Edit>, id: Identity)
    requires Patch(f, edits).Some? && Select(edits, id) == []
    ensures Get(Patch(f, edits).value, id) == Get(f, id)
    decreases |edits|
  {
    if edits != [] {
      EditForestAt(f, edits[0], id);
      UntouchedSlot(EditForest(f, edits[0]).value, edits[1..], id);
    }
  }

  /** The patch from `b` to `c` leaves the interfaces of `a` where they are, and `c` has none. */
  lemma PatchMisses(a: Selection, b: Selection, c: Selection)
    requires Contents(a, b, c)
    ensures Patch(ForestOf(a), Diff(b, c, [])) != Some(ForestOf(c))
  {
    var id := Plain("interfaces");
    InterfacesNode(InitialConfig(), a);
    InterfacesNode(EmptyConfig(), b);
    InterfacesNode(Named("edge"), c);
    SelectDiff(b, c, id);
    if Patch(ForestOf(a), Diff(b, c, [])).Some? {
      UntouchedSlot(ForestOf(a), Diff(b, c, []), id);
      ForestAt(a, id);
      ForestAt(c, id);
      EmptyForest(a[1].children);
      EmptyForest(c[1].children);
    }
  }

  // ------------------------------------------------------------------ the run

  lemma StoryBegins(states: seq<Server>)
    requires |states| == 11 && forall i :: 0 <= i < 10 ==> states[i + 1] == Step(states[i], Story()[i])
    ensures states[2] == StepEstablish(StepOpen(states[0]), SID, Watching(), None)
    ensures states[3] == StepWriteDone(states[2], SID)
    ensures states[4] == StepDeleteConfig(states[3], SID, Candidate, [])
    ensures states[5] == StepModify(states[4], SID, ID, Polling(), None)
  {
    assert states[0 + 1] == Step(states[0], Story()[0]);
    assert states[1 + 1] == Step(states[1], Story()[1]);
    assert states[2 + 1] == Step(states[2], Story()[2]);
    assert states[3 + 1] == Step(states[3], Story()[3]);
    assert states[4 + 1] == Step(states[4], Story()[4]);
  }

  lemma StoryTurns(states: seq<Server>)
    requires |states| == 11 && forall i :: 0 <= i < 10 ==> states[i + 1] == Step(states[i], Story()[i])
    ensures states[6] == StepWriteDone(states[5], SID)
    ensures states[7] == StepModify(states[6], SID, ID, Watching(), None)
    ensures states[8] == StepWriteDone(states[7], SID)
  {
    assert states[5 + 1] == Step(states[5], Story()[5]);
    assert states[6 + 1] == Step(states[6], Story()[6]);
    assert states[7 + 1] == Step(states[7], Story()[7]);
  }

  lemma StoryEnds(states: seq<Server>)
    requires |states| == 11 && forall i :: 0 <= i < 10 ==> states[i + 1] == Step(states[i], Story()[i])
    ensures states[9] == StepEdit(states[8], SID, Candidate, Naming("edge"), false, false, [])
    ensures states[10] == StepChangeTimer(states[9], SID, ID)
  {
    assert states[8 + 1] == Step(states[8], Story()[8]);
    NamingStep(states[8], states[9]);
    assert states[9 + 1] == Step(states[9], Story()[9]);
    ChangeTimerStep(states[9], states[10]);
  }

  lemma StoryUnfolds(states: seq<Server>, now: int)
    requires states == Unfold(InitialServer(now), Story())
    ensures IsRun(states, Story()) && |states| == 11 && states[0] == InitialServer(now)
  {
  }

  /** Idle in its own eyes, on-change and with no activation due, the subscription's receiver holds a stale copy. */
  ghost predicate StaleWhileIdle(s: Server) {
    && Live(s, SID, ID) && !Due(s.queues, SID, ID)
    && var sub, copy := Sub(s, SID, ID), Replica(s.wire, ID);
    IsOnChange(sub) && sub.pending == [] && copy.Holding? && copy.forest != ForestOf(Selected(s, sub))
  }

  /** The step sends a change update, after which the receiver does not hold the selection of that moment. */
  ghost predicate SendsMisfit(s: Server, t: Server) {
    && Live(s, SID, ID) && |t.wire| == |s.wire| + 1 && s.wire <= t.wire
    && t.wire[|s.wire|].PushChangeUpdate? && t.wire[|s.wire|].id == ID
    && Replica(s.wire, ID).Holding? && Replica(t.wire, ID) != Holding(ForestOf(Selected(s, Sub(s, SID, ID))))
  }

  lemma IdleScene(s: Server, now: int, a: Selection, b: Selection)
    requires ForestOf(a) != ForestOf(b)
    requires Shows(s, Scene(Stage(Watching(), IDLE, IDLE, [], b, a, now, 0, now + 1000), [],
                            [PushUpdate(ID, now, a, true)], EmptyConfig(), b, now))
    ensures StaleWhileIdle(s)
  {
    FirstCopy(a, now);
    ShownSelection(s, Scene(Stage(Watching(), IDLE, IDLE, [], b, a, now, 0, now + 1000), [],
                            [PushUpdate(ID, now, a, true)], EmptyConfig(), b, now));
  }

  lemma FirstCopy(a: Selection, now: int)
    ensures Replica([PushUpdate(ID, now, a, true)], ID) == Holding(ForestOf(a))
  {
    AfterUpdate([], PushUpdate(ID, now, a, true));
    assert [] + [PushUpdate(ID, now, a, true)] == [PushUpdate(ID, now, a, true)];
  }

  lemma MisfitScene(s: Server, t: Server, now: int, a: Selection, b: Selection, c: Selection, next: int)
    requires Contents(a, b, c)
    requires Shows(s, Scene(Stage(Watching(), ARMED, IDLE, Diff(b, c, []), c, a, now, 0, next), [],
                            [PushUpdate(ID, now, a, true)], Named("edge"), c, now))
    requires t.wire == s.wire + [PushChangeUpdate(ID, now, 0, Diff(b, c, []))]
    ensures SendsMisfit(s, t)
  {
    FirstCopy(a, now);
    ShownSelection(s, Scene(Stage(Watching(), ARMED, IDLE, Diff(b, c, []), c, a, now, 0, next), [],
                            [PushUpdate(ID, now, a, true)], Named("edge"), c, now));
    AfterChange(s.wire, PushChangeUpdate(ID, now, 0, Diff(b, c, [])));
    PatchMisses(a, b, c);
  }

  lemma StoryTold(states: seq<Server>, now: int, a: Selection, b: Selection, c: Selection)
    requires |states| == 11 && states[0] == InitialServer(now) && Contents(a, b, c)
    requires forall i :: 0 <= i < 10 ==> states[i + 1] == Step(states[i], Story()[i])
    ensures StaleWhileIdle(states[8]) && SendsMisfit(states[9], states[10])
  {
    StoryBegins(states);
    StoryTurns(states);
    StoryEnds(states);
    ActsPlayed(states, now, a, b, c);
  }

  lemma ActsPlayed(states: seq<Server>, now: int, a: Selection, b: Selection, c: Selection)
    requires |states| == 11 && states[0] == InitialServer(now) && Contents(a, b, c)
    requires states[2] == StepEstablish(StepOpen(states[0]), SID, Watching(), None)
    requires states[3] == StepWriteDone(states[2], SID) && states[4] == StepDeleteConfig(states[3], SID, Candidate, [])
    requires states[5] == StepModify(states[4], SID, ID, Polling(), None) && states[6] == StepWriteDone(states[5], SID)
    requires states[7] == StepModify(states[6], SID, ID, Watching(), None) && states[8] == StepWriteDone(states[7], SID)
    requires states[9] == StepEdit(states[8], SID, Candidate, Naming("edge"), false, false, [])
    requires states[10] == StepChangeTimer(states[9], SID, ID)
    ensures StaleWhileIdle(states[8]) && SendsMisfit(states[9], states[10])
  {
    var wire := [PushUpdate(ID, now, a, true)];
    FirstAct(states[2], states[3], states[4], now, a, b);
    PollAct(states[4], states[5], states[6], now, wire, ARMED, Diff(a, b, []), a, b, now, 0, 0);
    WatchAct(states[6], states[7], states[8], now, wire, a, b, now, 0, now + 1000);
    NameAct(states[8], states[9], now, wire, a, b, c, now, 0, now + 1000);
    PushAct(states[9], states[10], now, wire, Diff(b, c, []), a, c, Named("edge"), now, 0, now + 1000);
    HostnamesDiffer(InitialConfig(), EmptyConfig(), a, b);
    IdleScene(states[8], now, a, b);
    MisfitScene(states[9], states[10], now, a, b, c, now + 1000);
  }

  /** From every starting time there is a run in which an idle receiver is stale, and the next change update does
      not mend it: both promises about receivers fail, and some step of the run has lost edits. */
  lemma SomeRunLosesEdits(now: int)
    ensures exists states: seq<Server>, events: seq<Event> ::
              && IsRun(states, events) && |events| == 10 && states[0] == InitialServer(now)
              && StaleWhileIdle(states[8]) && SendsMisfit(states[9], states[10])
              && !Intact(states, events, 8, ID)
  {
    var states := Unfold(InitialServer(now), Story());
    StoryUnfolds(states, now);
    RenderWellFormedIff(InitialConfig());
    RenderWellFormedIff(EmptyConfig());
    RenderWellFormedIff(Named("edge"));
    StoryTold(states, now, Render(InitialConfig()), Render(EmptyConfig()), Render(Named("edge")));
    NotIntact(states, Story());
  }

  lemma NotIntact(states: seq<Server>, events: seq<Event>)
    requires IsRun(states, events) && |events| == 10 && StaleWhileIdle(states[8])
    ensures !Intact(states, events, 8, ID)
  {
    if Intact(states, events, 8, ID) {
      ReplicaFollowsSelection(states, events, 8, SID, ID);
    }
  }
}
