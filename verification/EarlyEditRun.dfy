/** A run in which a client that asked for no initial push cannot use the first change update: two interfaces are
    created before the subscription is activated, and the second is pushed although activation has recorded a
    selection that contains it. */
module EarlyEditRun {
  import opened Options
  import opened SelectionDiff
  import opened EditConfig
  import opened YangPush
  import opened ReplicaProofs
  import opened ReplicaLimits
  import opened NetconfServer
  import opened ServerSteps
  import opened ServerRuns
  import opened ServerEarly
  import opened Scenes

  /** On change, without dampening and without sync-on-start. */
  function Quiet(): Kind {
    OnCandidate(OnChange(0, false))
  }

  function Adding(name: string): Fragment {
    Fragment(None, Some([InterfaceEdit(Some(name), "create", None, None, None)]))
  }

  function With(config: Config, name: string): Config {
    Config(config.system, config.interfaces + [DefaultInterface(name)])
  }

  function Story(): seq<Event> {
    [Event.Open, EstablishSub(SID, Quiet(), None), Event.Edit(SID, Candidate, Adding("eth1"), false, false, []),
     Event.Edit(SID, Candidate, Adding("eth2"), false, false, []), WriteDone(SID), ChangeTimer(SID, ID)]
  }

  // ------------------------------------------------------------------ contents

  predicate Fresh(config: Config, name: string) {
    name != "" && forall i :: 0 <= i < |config.interfaces| ==> config.interfaces[i].name != name
  }

  lemma AddingAdds(config: Config, name: string)
    requires Fresh(config, name)
    ensures ApplyFragment(config, Adding(name), false) == Ok(With(config, name))
  {
    var e := InterfaceEdit(Some(name), "create", None, None, None);
    assert EditAll(config.interfaces, [e]) == EditAll(EditList(config.interfaces, e), [e][1..]);
  }

  lemma {:induction false} SelectedIsThere(edits: seq<Edit>, id: Identity, e: Edit)
    requires e in Select(edits, id)
    ensures e in edits
  {
    if edits != [] && e != edits[0] {
      SelectedIsThere(edits[1..], id, e);
    }
  }

  /** The new interface is a create among the edits of the interface lists. */
  lemma NewEntryIsCreated(config: Config, name: string, xs: seq<Node>, ys: seq<Node>) returns (e: Edit)
    requires Fresh(config, name) && xs == Render(config)[1].children && ys == Render(With(config, name))[1].children
    ensures e in Diff(xs, ys, []) && e.operation.Create?
  {
    var key := Keyed("interface", name);
    var more := With(config, name).interfaces;
    forall i | 0 <= i < |more| ensures IdentityOf(ys[i]) == Keyed("interface", more[i].name) {
      InterfaceNodeWellFormed(more[i]);
    }
    forall i | 0 <= i < |xs| ensures IdentityOf(xs[i]) != key {
      InterfaceNodeWellFormed(config.interfaces[i]);
    }
    assert ys[|more| - 1] in ys;
    SelectDiff(xs, ys, key);
    assert Lookup(xs, key).None? && Lookup(ys, key).Some?;
    e := DiffAt(key, xs, ys, [])[0];
    SelectedIsThere(Diff(xs, ys, []), key, e);
  }

  /** The same below the container of a rendered configuration that has interfaces already. */
  lemma InterfaceIsCreated(config: Config, name: string, x: Selection, y: Selection)
    requires Fresh(config, name) && config.interfaces != [] && x == Render(config) && y == Render(With(config, name))
    ensures exists e :: e in Diff(x, y, []) && e.operation.Create?
  {
    var id, xs, ys := Plain("interfaces"), x[1].children, y[1].children;
    InterfacesNode(config, x);
    InterfacesNode(With(config, name), y);
    var inner := NewEntryIsCreated(config, name, xs, ys);
    SelectDiff(x, y, id);
    assert [] + [id] == [id];
    DiffRelative(xs, ys, [id]);
    var e := PrefixedHas([id], Diff(xs, ys, []), inner);
    SelectedIsThere(Diff(x, y, []), id, e);
  }

  lemma PrefixedHas(parent: seq<Identity>, edits: seq<Edit>, inner: Edit) returns (e: Edit)
    requires inner in edits
    ensures e in Prefixed(parent, edits) && e.operation == inner.operation
  {
    var i :| 0 <= i < |edits| && edits[i] == inner;
    e := Prefixed(parent, edits)[i];
  }

  // -------------------------------------------------------- the subscription

  /** Before any push. */
  function Waiting(change: Timer, pending: seq<Edit>, observed: Option<Selection>,
                   last: Option<Selection>): Subscription {
    Subscription(ID, Quiet(), None, IDLE, IDLE, change, pending, observed, last, None, 0, 0)
  }

  lemma FirstLook(b: Selection, now: int)
    ensures Observe(Establish(ID, Quiet(), None), b, now).sub == Some(Waiting(IDLE, [], Some(b), None))
  {
    NothingMore([], b);
  }

  lemma SecondLook(b: Selection, c: Selection, edits: seq<Edit>, now: int)
    requires edits == Diff(b, c, []) && edits != []
    ensures Observe(Waiting(IDLE, [], Some(b), None), c, now).sub == Some(Waiting(ARMED, edits, Some(c), None))
  {
    var sub := Waiting(IDLE, [], Some(b), None);
    calc {
      Observe(sub, c, now).sub;
      { NoticesEdits(sub, b, c, edits, now); }
      Some(sub.(pending := edits, observed := Some(c), changeTimer := Arm(IDLE)));
      { ArmedNow(edits, b, c); }
      Some(Waiting(ARMED, edits, Some(c), None));
    }
  }

  lemma ArmedNow(edits: seq<Edit>, b: Selection, c: Selection)
    ensures Waiting(IDLE, [], Some(b), None).(pending := edits, observed := Some(c), changeTimer := Arm(IDLE))
            == Waiting(ARMED, edits, Some(c), None)
  {
  }

  lemma Activates(edits: seq<Edit>, c: Selection, now: int)
    ensures TakeTurn(Waiting(ARMED, edits, Some(c), None), c, now, Activation(true))
            == Outcome(Some(Waiting(ARMED, edits, Some(c), Some(c))), [])
  {
    NothingMore(edits, c);
  }

  lemma Pushes(edits: seq<Edit>, c: Selection, now: int)
    requires edits != []
    ensures var o := FireChange(Waiting(ARMED, edits, Some(c), Some(c)), c, now);
            o.sub.Some? && o.sub.value.kind == Quiet() && o.sent == [PushChangeUpdate(ID, now, 0, edits)]
  {
    SendChangeShape(Waiting(IDLE, edits, Some(c), Some(c)), c, now);
    NothingMore(edits, c);
  }

  // ------------------------------------------------------------------- scenes

  lemma OpeningQuietly(now: int, a: Selection)
    requires a == Render(InitialConfig())
    ensures Shows(StepEstablish(StepOpen(InitialServer(now)), SID, Quiet(), None),
                  Scene(Establish(ID, Quiet(), None), [ActivateNew(ID)], [], InitialConfig(), a, now))
  {
  }

  lemma AddScene(s: Server, c: Scene, name: string, candidate: Selection, after: Subscription)
    requires Shows(s, c) && Fresh(c.config, name) && candidate == Render(With(c.config, name))
    requires Observe(c.sub, candidate, c.now).sub == Some(after) && after.kind == c.sub.kind
    ensures Shows(StepEdit(s, SID, Candidate, Adding(name), false, false, []),
                  c.(sub := after, config := With(c.config, name), candidate := candidate))
  {
    AddingAdds(c.config, name);
    ApplyFragmentKeepsGood(s.stores.candidate, Adding(name), false);
    WriteScene(s, c, With(c.config, name), candidate, after);
  }

  /** The first interface is created before the reply to establish has been written. */
  lemma FirstEdit(s2: Server, s3: Server, now: int, a: Selection, b: Selection)
    requires a == Render(InitialConfig()) && b == Render(First())
    requires s2 == StepEstablish(StepOpen(InitialServer(now)), SID, Quiet(), None)
    requires s3 == StepEdit(s2, SID, Candidate, Adding("eth1"), false, false, [])
    ensures Shows(s3, Scene(Waiting(IDLE, [], Some(b), None), [ActivateNew(ID)], [], First(), b, now))
  {
    OpeningQuietly(now, a);
    FirstLook(b, now);
    NewNames();
    AddScene(s2, Scene(Establish(ID, Quiet(), None), [ActivateNew(ID)], [], InitialConfig(), a, now), "eth1", b,
             Waiting(IDLE, [], Some(b), None));
  }

  /** So is the second. */
  lemma SecondEdit(s3: Server, s4: Server, now: int, b: Selection, c: Selection, edits: seq<Edit>)
    requires c == Render(Last()) && edits == Diff(b, c, []) && edits != []
    requires Shows(s3, Scene(Waiting(IDLE, [], Some(b), None), [ActivateNew(ID)], [], First(), b, now))
    requires s4 == StepEdit(s3, SID, Candidate, Adding("eth2"), false, false, [])
    ensures Shows(s4, Scene(Waiting(ARMED, edits, Some(c), None), [ActivateNew(ID)], [], Last(), c, now))
  {
    SecondLook(b, c, edits, now);
    NewNames();
    AddScene(s3, Scene(Waiting(IDLE, [], Some(b), None), [ActivateNew(ID)], [], First(), b, now), "eth2", c,
             Waiting(ARMED, edits, Some(c), None));
  }

  lemma NewNames()
    ensures Fresh(InitialConfig(), "eth1") && Fresh(First(), "eth2")
  {
    assert "eth1" != "eth0" && "eth2" != "eth0" && "eth2" != "eth1";
  }

  function First(): Config {
    With(InitialConfig(), "eth1")
  }

  function Last(): Config {
    With(First(), "eth2")
  }

  ghost predicate Contents(a: Selection, b: Selection, c: Selection) {
    a == Render(InitialConfig()) && b == Render(First()) && c == Render(Last())
  }

  /** The subscription is activated, and its change timer fires. */
  lemma PushesAct(s4: Server, s5: Server, s6: Server, now: int, edits: seq<Edit>, c: Selection)
    requires edits != []
    requires Shows(s4, Scene(Waiting(ARMED, edits, Some(c), None), [ActivateNew(ID)], [], Last(), c, now))
    requires s5 == StepWriteDone(s4, SID) && s6 == StepChangeTimer(s5, SID, ID)
    ensures Shows(s5, Scene(Waiting(ARMED, edits, Some(c), Some(c)), [], [], Last(), c, now))
    ensures s6.wire == [PushChangeUpdate(ID, now, 0, edits)]
  {
    var waiting := Scene(Waiting(ARMED, edits, Some(c), None), [ActivateNew(ID)], [], Last(), c, now);
    var active := Waiting(ARMED, edits, Some(c), Some(c));
    Activates(edits, c, now);
    assert [ActivateNew(ID)][1..] == [];
    CallbackScene(s4, waiting, Activation(true), Outcome(Some(active), []), active);
    Pushes(edits, c, now);
    var o := FireChange(active, c, now);
    ChangeScene(s5, Scene(active, [], [], Last(), c, now), o, o.sub.value);
  }

  // ------------------------------------------------------------------ the run

  /** The step sends a change update that a receiver at the selection recorded as sent must refuse, although that
      selection is the current one. */
  ghost predicate SendsUnusable(s: Server, t: Server) {
    && Live(s, SID, ID) && Sub(s, SID, ID).last == Some(Selected(s, Sub(s, SID, ID)))
    && |t.wire| == |s.wire| + 1 && s.wire <= t.wire && t.wire[|s.wire|].PushChangeUpdate? && t.wire[|s.wire|].id == ID
    && Patch(ForestOf(Sub(s, SID, ID).last.value), t.wire[|s.wire|].edits) == None
  }

  lemma CreatedTwice(b: Selection, c: Selection)
    requires b == Render(First()) && c == Render(Last())
    ensures Diff(b, c, []) != [] && Patch(ForestOf(c), Diff(b, c, [])) == None
  {
    NewNames();
    InterfaceIsCreated(First(), "eth2", b, c);
    PatchMetAgain(b, c, Diff(b, c, []));
  }

  lemma StoryUnfolds(states: seq<Server>, now: int)
    requires states == Unfold(InitialServer(now), Story())
    ensures IsRun(states, Story()) && |states| == 7 && states[0] == InitialServer(now)
  {
  }

  lemma StoryBegins(states: seq<Server>)
    requires |states| == 7 && forall i :: 0 <= i < 6 ==> states[i + 1] == Step(states[i], Story()[i])
    ensures states[2] == StepEstablish(StepOpen(states[0]), SID, Quiet(), None)
    ensures states[3] == StepEdit(states[2], SID, Candidate, Adding("eth1"), false, false, [])
    ensures states[4] == StepEdit(states[3], SID, Candidate, Adding("eth2"), false, false, [])
  {
    assert states[0 + 1] == Step(states[0], Story()[0]);
    assert states[1 + 1] == Step(states[1], Story()[1]);
    assert states[2 + 1] == Step(states[2], Story()[2]);
    AddingStep(states[2], "eth1", states[3]);
    assert states[3 + 1] == Step(states[3], Story()[3]);
    AddingStep(states[3], "eth2", states[4]);
  }

  lemma AddingStep(s: Server, name: string, t: Server)
    requires t == Step(s, Event.Edit(SID, Candidate, Adding(name), false, false, []))
    ensures t == StepEdit(s, SID, Candidate, Adding(name), false, false, [])
  {
  }

  lemma StoryEnds(states: seq<Server>)
    requires |states| == 7 && forall i :: 0 <= i < 6 ==> states[i + 1] == Step(states[i], Story()[i])
    ensures states[5] == StepWriteDone(states[4], SID)
    ensures states[6] == StepChangeTimer(states[5], SID, ID)
  {
    assert states[4 + 1] == Step(states[4], Story()[4]);
    assert states[5 + 1] == Step(states[5], Story()[5]);
    ChangeTimerStep(states[5], states[6]);
  }

  lemma ActsPlayed(states: seq<Server>, now: int, a: Selection, b: Selection, c: Selection, edits: seq<Edit>)
    requires |states| == 7 && states[0] == InitialServer(now) && Contents(a, b, c)
    requires edits == Diff(b, c, []) && edits != [] && Patch(ForestOf(c), edits) == None
    requires states[2] == StepEstablish(StepOpen(states[0]), SID, Quiet(), None)
    requires states[3] == StepEdit(states[2], SID, Candidate, Adding("eth1"), false, false, [])
    requires states[4] == StepEdit(states[3], SID, Candidate, Adding("eth2"), false, false, [])
    requires states[5] == StepWriteDone(states[4], SID) && states[6] == StepChangeTimer(states[5], SID, ID)
    ensures ActivatesQuietly(states[4], WriteDone(SID), SID, ID) && SendsUnusable(states[5], states[6])
  {
    FirstEdit(states[2], states[3], now, a, b);
    SecondEdit(states[3], states[4], now, b, c, edits);
    PushesAct(states[4], states[5], states[6], now, edits, c);
    UnusableScene(states[5], states[6], now, edits, c);
  }

  lemma UnusableScene(s: Server, t: Server, now: int, edits: seq<Edit>, c: Selection)
    requires Shows(s, Scene(Waiting(ARMED, edits, Some(c), Some(c)), [], [], Last(), c, now))
    requires t.wire == [PushChangeUpdate(ID, now, 0, edits)] && Patch(ForestOf(c), edits) == None
    ensures SendsUnusable(s, t)
  {
    ShownSelection(s, Scene(Waiting(ARMED, edits, Some(c), Some(c)), [], [], Last(), c, now));
  }

  lemma StoryTold(states: seq<Server>, now: int, a: Selection, b: Selection, c: Selection)
    requires |states| == 7 && states[0] == InitialServer(now) && Contents(a, b, c)
    requires forall i :: 0 <= i < 6 ==> states[i + 1] == Step(states[i], Story()[i])
    ensures ActivatesQuietly(states[4], WriteDone(SID), SID, ID) && SendsUnusable(states[5], states[6])
  {
    StoryBegins(states);
    StoryEnds(states);
    CreatedTwice(b, c);
    ActsPlayed(states, now, a, b, c, Diff(b, c, []));
  }

  lemma WellFormedContents() returns (a: Selection, b: Selection, c: Selection)
    ensures Contents(a, b, c)
  {
    NewNames();
    AddingAdds(InitialConfig(), "eth1");
    ApplyFragmentKeepsGood(InitialConfig(), Adding("eth1"), false);
    AddingAdds(First(), "eth2");
    ApplyFragmentKeepsGood(First(), Adding("eth2"), false);
    RenderWellFormedIff(InitialConfig());
    RenderWellFormedIff(First());
    RenderWellFormedIff(Last());
    a, b, c := Render(InitialConfig()), Render(First()), Render(Last());
  }

  /** From every starting time there is a run in which the subscription is activated and the next change update
      cannot be applied to the selection that activation recorded as sent. */
  lemma SomeEarlyEditIsRefused(now: int)
    ensures exists states: seq<Server>, events: seq<Event> ::
              && IsRun(states, events) && |events| == 6 && states[0] == InitialServer(now)
              && ActivatesQuietly(states[4], events[4], SID, ID) && SendsUnusable(states[5], states[6])
  {
    var states := Unfold(InitialServer(now), Story());
    StoryUnfolds(states, now);
    var a, b, c := WellFormedContents();
    StoryTold(states, now, a, b, c);
  }
}
