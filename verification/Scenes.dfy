/** Runs with one session and one subscription on the candidate, told scene by scene: what the server is for that
    subscription, and how each event leads from one scene to the next. */
module Scenes {
  import opened Options
  import opened SelectionDiff
  import opened EditConfig
  import opened YangPush
  import opened ReplicaProofs
  import opened NetconfServer
  import opened ServerSteps

  const SID: nat := 1001
  const ID: nat := 2_147_483_648

  function OnCandidate(trigger: Trigger): Kind {
    Push(Candidate, (s: Selection) => s, trigger)
  }

  function Watching(): Kind {
    OnCandidate(OnChange(0, true))
  }

  function Polling(): Kind {
    OnCandidate(Periodic(1000, None))
  }

  /** The subscription, the callbacks that wait, the wire, the candidate and its rendering, and the clock. */
  datatype Scene = Scene(sub: Subscription, callbacks: seq<Callback>, wire: seq<Message>,
                         config: Config, candidate: Selection, now: int)

  ghost predicate Shows(s: Server, c: Scene) {
    && Live(s, SID, ID) && Sub(s, SID, ID) == c.sub && c.sub.kind.Push? && c.sub.kind == OnCandidate(c.sub.kind.trigger)
    && s.locks == PerStore(None, None, None) && SID in s.queues && s.queues[SID] == c.callbacks
    && s.wire == c.wire && s.stores.candidate == c.config && Render(c.config) == c.candidate && s.now == c.now
  }

  lemma ShownSelection(s: Server, c: Scene)
    requires Shows(s, c)
    ensures Selected(s, c.sub) == c.candidate
  {
  }

  // ------------------------------------------------------------------- events

  lemma OpeningScene(now: int, candidate: Selection)
    requires candidate == Render(InitialConfig())
    ensures Shows(StepEstablish(StepOpen(InitialServer(now)), SID, Watching(), None),
                  Scene(Establish(ID, Watching(), None), [ActivateNew(ID)], [], InitialConfig(), candidate, now))
  {
  }

  lemma CallbackScene(s: Server, c: Scene, turn: Turn, o: Outcome, after: Subscription)
    requires Shows(s, c) && c.callbacks != [] && c.callbacks[0].id == ID && CallbackTurn(c.callbacks[0]) == Some(turn)
    requires o == TakeTurn(c.sub, c.candidate, c.now, turn) && o.sub == Some(after) && after.kind == c.sub.kind
    ensures Shows(StepWriteDone(s, SID), c.(sub := after, callbacks := c.callbacks[1..], wire := c.wire + o.sent))
  {
    ShownSelection(s, c);
    CallbackIsTurn(s, c.sub, c.callbacks[0]);
  }

  lemma ChangeScene(s: Server, c: Scene, o: Outcome, after: Subscription)
    requires Shows(s, c) && c.sub.changeTimer.armed > 0
    requires o == FireChange(c.sub, c.candidate, c.now) && o.sub == Some(after) && after.kind == c.sub.kind
    ensures Shows(StepChangeTimer(s, SID, ID), c.(sub := after, wire := c.wire + o.sent))
  {
    ShownSelection(s, c);
  }

  lemma UpdateScene(s: Server, c: Scene, o: Outcome, after: Subscription)
    requires Shows(s, c) && c.sub.updateTimer.armed > 0
    requires o == FireUpdate(c.sub, c.candidate, c.now) && o.sub == Some(after) && after.kind == c.sub.kind
    ensures Shows(StepUpdateTimer(s, SID, ID), c.(sub := after, wire := c.wire + o.sent))
  {
    ShownSelection(s, c);
  }

  lemma ModifyScene(s: Server, c: Scene, trigger: Trigger)
    requires Shows(s, c) && c.sub.stopTime.None?
    ensures Shows(StepModify(s, SID, ID, OnCandidate(trigger), None),
                  c.(sub := Modify(c.sub, OnCandidate(trigger), None),
                     callbacks := c.callbacks + [ActivateModified(ID)]))
  {
    assert s.wire + [] == s.wire;
  }

  lemma ClockScene(s: Server, c: Scene, reading: int)
    requires Shows(s, c) && reading >= c.now
    ensures Shows(Step(s, Clock(reading)), c.(now := reading))
  {
    ClockStep(s, reading);
    LaterScene(s, c, reading);
  }

  lemma ClockStep(s: Server, reading: int)
    requires reading >= s.now
    ensures Step(s, Clock(reading)) == s.(now := reading)
  {
  }

  lemma LaterScene(s: Server, c: Scene, reading: int)
    requires Shows(s, c)
    ensures Shows(s.(now := reading), c.(now := reading))
  {
  }

  lemma WriteScene(s: Server, c: Scene, config: StoredConfig, candidate: Selection, after: Subscription)
    requires Shows(s, c) && Render(config) == candidate
    requires Observe(c.sub, candidate, c.now).sub == Some(after) && after.kind == c.sub.kind
    ensures Shows(Changed(s.(stores := s.stores.Put(Candidate, config)), []),
                  c.(sub := after, config := config, candidate := candidate))
  {
    var u := s.(stores := s.stores.Put(Candidate, config), revision := s.revision + 1);
    NotifiedScene(u, c.(config := config, candidate := candidate));
    ObservedScene(Notify(u, []), c.(config := config, candidate := candidate), after);
  }

  lemma NotifiedScene(u: Server, c: Scene)
    requires Shows(u, c)
    ensures Shows(Notify(u, []), c)
  {
    assert u.wire + [] == u.wire;
  }

  lemma ObservedScene(u: Server, c: Scene, after: Subscription)
    requires Shows(u, c) && Observe(c.sub, c.candidate, c.now).sub == Some(after) && after.kind == c.sub.kind
    ensures Shows(ObserveAll(u), c.(sub := after))
  {
    ShownSelection(u, c);
    assert Observed(u, c.sub) == Some(after);
  }

  // -------------------------------------------------------- the subscription

  const IDLE: Timer := Timer(false, 0)
  const ARMED: Timer := Timer(true, 1)

  /** A subscription without stop time, after its first push. */
  function Stage(kind: Kind, change: Timer, update: Timer, pending: seq<Edit>, observed: Selection, last: Selection,
                 at: int, patch: nat, next: int): Subscription {
    Subscription(ID, kind, None, IDLE, update, change, pending, Some(observed), Some(last), Some(at), patch, next)
  }

  lemma FirstPush(a: Selection, now: int)
    ensures TakeTurn(Establish(ID, Watching(), None), a, now, Activation(true))
            == Outcome(Some(Stage(Watching(), IDLE, IDLE, [], a, a, now, 0, 0)), [PushUpdate(ID, now, a, true)])
  {
  }

  lemma NoticesEdits(sub: Subscription, b: Selection, c: Selection, edits: seq<Edit>, now: int)
    requires IsOnChange(sub) && sub.stopTime.None? && !sub.changeTimer.held && sub.pending == []
             && sub.observed == Some(b)
    requires edits == Diff(b, c, []) && edits != []
    ensures Observe(sub, c, now).sub
            == Some(sub.(pending := edits, observed := Some(c), changeTimer := Arm(sub.changeTimer)))
  {
    assert [] + edits == edits;
  }

  lemma Notices(b: Selection, c: Selection, edits: seq<Edit>, last: Selection, at: int, patch: nat, next: int, now: int)
    requires edits == Diff(b, c, []) && edits != []
    ensures Observe(Stage(Watching(), IDLE, IDLE, [], b, last, at, patch, next), c, now).sub
            == Some(Stage(Watching(), ARMED, IDLE, edits, c, last, at, patch, next))
  {
    var sub := Stage(Watching(), IDLE, IDLE, [], b, last, at, patch, next);
    NoticesEdits(sub, b, c, edits, now);
    assert sub.(pending := edits, observed := Some(c), changeTimer := Arm(sub.changeTimer))
        == Stage(Watching(), ARMED, IDLE, edits, c, last, at, patch, next);
  }

  lemma StartsPolling(pending: seq<Edit>, b: Selection, last: Selection, at: int, patch: nat, next: int, now: int)
    ensures TakeTurn(Stage(Polling(), IDLE, IDLE, pending, b, last, at, patch, next), b, now, Activation(false))
            == Outcome(Some(Stage(Polling(), IDLE, ARMED, [], b, last, at, patch, now + 1000)), [])
  {
    DeliverPeriodicShape(Stage(Polling(), IDLE, IDLE, pending, b, last, at, patch, next), b, now, false);
  }

  lemma StartsWatching(b: Selection, last: Selection, at: int, patch: nat, next: int, now: int)
    ensures var sub := Stage(Watching(), IDLE, IDLE, [], b, last, at, patch, next);
            TakeTurn(sub, b, now, Activation(false)) == Outcome(Some(sub), [])
  {
    SameForestNoEdits(b, b);
  }

  lemma PushesChange(pending: seq<Edit>, c: Selection, last: Selection, at: int, patch: nat, next: int, now: int)
    requires pending != [] && at <= now && patch < PATCH_IDS - 1
    ensures FireChange(Stage(Watching(), ARMED, IDLE, pending, c, last, at, patch, next), c, now)
            == Outcome(Some(Stage(Watching(), IDLE, IDLE, [], c, c, now, patch + 1, next)),
                       [PushChangeUpdate(ID, now, patch, pending)])
  {
    var fired := Stage(Watching(), IDLE, IDLE, pending, c, last, at, patch, next);
    assert FireChange(Stage(Watching(), ARMED, IDLE, pending, c, last, at, patch, next), c, now)
           == SendChangeUpdate(fired, c, now);
    SendChangeShape(fired, c, now);
    NothingMore(pending, c);
    assert (patch + 1) % PATCH_IDS == patch + 1;
  }

  lemma NothingMore(pending: seq<Edit>, c: Selection)
    ensures pending + Diff(c, c, []) == pending
  {
    SameForestNoEdits(c, c);
  }

  lemma PushesTick(b: Selection, last: Selection, at: int, patch: nat, next: int, now: int)
    requires next <= now
    ensures FireUpdate(Stage(Polling(), IDLE, ARMED, [], b, last, at, patch, next), b, now)
            == Outcome(Some(Stage(Polling(), IDLE, ARMED, [], b, b, now, patch, NextUpdateAt(next, 1000, now))),
                       [PushUpdate(ID, now, b, false)])
  {
  }

  // ------------------------------------------------------------------ contents

  function Named(hostname: string): Config {
    Config(System(hostname, "", ""), [])
  }

  function Naming(hostname: string): Fragment {
    Fragment(Some(SystemEdit(Some(hostname), None, None)), None)
  }

  lemma DeleteScene(s: Server, c: Scene, candidate: Selection, after: Subscription)
    requires Shows(s, c) && candidate == Render(EmptyConfig())
    requires Observe(c.sub, candidate, c.now).sub == Some(after) && after.kind == c.sub.kind
    ensures Shows(StepDeleteConfig(s, SID, Candidate, []),
                  c.(sub := after, config := EmptyConfig(), candidate := candidate))
  {
    WriteScene(s, c, EmptyConfig(), candidate, after);
  }

  lemma NameScene(s: Server, c: Scene, hostname: string, candidate: Selection, after: Subscription)
    requires Shows(s, c) && c.config == EmptyConfig() && candidate == Render(Named(hostname))
    requires Observe(c.sub, candidate, c.now).sub == Some(after) && after.kind == c.sub.kind
    ensures Shows(StepEdit(s, SID, Candidate, Naming(hostname), false, false, []),
                  c.(sub := after, config := Named(hostname), candidate := candidate))
  {
    assert ApplyFragment(s.stores.candidate, Naming(hostname), false) == Ok(Named(hostname));
    WriteScene(s, c, Named(hostname), candidate, after);
  }

  // ----------------------------------------------------------- what is different

  lemma TwinNamed(a: seq<Node>, b: seq<Node>, x: Node, y: Node)
    requires SameUpToOrder(a, b) && x in a && forall z :: z in b && z.name == x.name ==> z == y
    ensures SameNode(x, y)
  {
    assert EachFound(a, b);
  }

  lemma TextDiffers(a: seq<Node>, b: seq<Node>, x: Node, y: Node, h: Node, g: Node)
    requires x in a && h in x.children && h.text != g.text
    requires forall z :: z in b && z.name == x.name ==> z == y
    requires forall z :: z in y.children && z.name == h.name ==> z == g
    ensures !SameUpToOrder(a, b)
  {
    if SameUpToOrder(a, b) {
      TwinNamed(a, b, x, y);
      TwinNamed(x.children, y.children, h, g);
    }
  }

  /** Configurations with different host names have different selections, and a diff between them. */
  lemma HostnamesDiffer(a: Config, b: Config, x: Selection, y: Selection)
    requires x == Render(a) && y == Render(b) && a.system.hostname != b.system.hostname
    ensures !SameUpToOrder(x, y) && Diff(x, y, []) != [] && ForestOf(x) != ForestOf(y)
  {
    TextDiffers(x, y, x[0], y[0], x[0].children[0], y[0].children[0]);
    DiffEmptyIffSame(x, y);
  }

  lemma InterfacesNode(config: Config, x: Selection)
    requires x == Render(config)
    ensures Lookup(x, Plain("interfaces")) == Some(x[1])
  {
    assert IdentityOf(x[1]) == Plain("interfaces") && x[1] in x;
    LookupUnique(x, x[1]);
  }

  lemma NamingStep(s: Server, t: Server)
    requires t == Step(s, Event.Edit(SID, Candidate, Naming("edge"), false, false, []))
    ensures t == StepEdit(s, SID, Candidate, Naming("edge"), false, false, [])
  {
  }

  lemma ChangeTimerStep(s: Server, t: Server)
    requires t == Step(s, ChangeTimer(SID, ID))
    ensures t == StepChangeTimer(s, SID, ID)
  {
  }

  // --------------------------------------------------------------------- acts

  /** `a` to begin with, `b` after a deletion, `c` once the candidate has a host name again. */
  ghost predicate Contents(a: Selection, b: Selection, c: Selection) {
    a == Render(InitialConfig()) && b == Render(EmptyConfig()) && c == Render(Named("edge"))
  }

  /** The client subscribes and is synced; the candidate is deleted. */
  lemma FirstAct(s2: Server, s3: Server, s4: Server, now: int, a: Selection, b: Selection)
    requires a == Render(InitialConfig()) && b == Render(EmptyConfig())
    requires s2 == StepEstablish(StepOpen(InitialServer(now)), SID, Watching(), None)
    requires s3 == StepWriteDone(s2, SID) && s4 == StepDeleteConfig(s3, SID, Candidate, [])
    ensures Shows(s4, Scene(Stage(Watching(), ARMED, IDLE, Diff(a, b, []), b, a, now, 0, 0), [],
                            [PushUpdate(ID, now, a, true)], EmptyConfig(), b, now))
    ensures Diff(a, b, []) != [] && ForestOf(a) != ForestOf(b)
  {
    OpeningScene(now, a);
    FirstPush(a, now);
    var one := Stage(Watching(), IDLE, IDLE, [], a, a, now, 0, 0);
    var opening := Scene(Establish(ID, Watching(), None), [ActivateNew(ID)], [], InitialConfig(), a, now);
    CallbackScene(s2, opening, Activation(true), Outcome(Some(one), [PushUpdate(ID, now, a, true)]), one);
    assert [] + [PushUpdate(ID, now, a, true)] == [PushUpdate(ID, now, a, true)];
    HostnamesDiffer(InitialConfig(), EmptyConfig(), a, b);
    Notices(a, b, Diff(a, b, []), a, now, 0, 0, now);
    DeleteScene(s3, Scene(one, [], [PushUpdate(ID, now, a, true)], InitialConfig(), a, now), b,
                Stage(Watching(), ARMED, IDLE, Diff(a, b, []), b, a, now, 0, 0));
  }

  /** The client switches to a periodic trigger, which empties the queue. */
  lemma PollAct(s: Server, t: Server, u: Server, now: int, wire: seq<Message>, change: Timer, pending: seq<Edit>,
                last: Selection, b: Selection, at: int, patch: nat, next: int)
    requires change == IDLE || change == ARMED
    requires Shows(s, Scene(Stage(Watching(), change, IDLE, pending, b, last, at, patch, next), [], wire,
                            EmptyConfig(), b, now))
    requires t == StepModify(s, SID, ID, Polling(), None) && u == StepWriteDone(t, SID)
    ensures Shows(u, Scene(Stage(Polling(), IDLE, ARMED, [], b, last, at, patch, now + 1000), [], wire,
                           EmptyConfig(), b, now))
  {
    assert [] + [ActivateModified(ID)] == [ActivateModified(ID)] && [ActivateModified(ID)][1..] == []
           && wire + [] == wire;
    var watching := Stage(Watching(), change, IDLE, pending, b, last, at, patch, next);
    ModifyScene(s, Scene(watching, [], wire, EmptyConfig(), b, now), Periodic(1000, None));
    var asked := Stage(Polling(), IDLE, IDLE, pending, b, last, at, patch, next);
    StartsPolling(pending, b, last, at, patch, next, now);
    var polling := Stage(Polling(), IDLE, ARMED, [], b, last, at, patch, now + 1000);
    CallbackScene(t, Scene(asked, [ActivateModified(ID)], wire, EmptyConfig(), b, now), Activation(false),
                  Outcome(Some(polling), []), polling);
  }

  /** The client switches back to watching, and nothing is found new. */
  lemma WatchAct(s: Server, t: Server, u: Server, now: int, wire: seq<Message>, last: Selection, b: Selection,
                 at: int, patch: nat, next: int)
    requires Shows(s, Scene(Stage(Polling(), IDLE, ARMED, [], b, last, at, patch, next), [], wire, EmptyConfig(), b,
                            now))
    requires t == StepModify(s, SID, ID, Watching(), None) && u == StepWriteDone(t, SID)
    ensures Shows(u, Scene(Stage(Watching(), IDLE, IDLE, [], b, last, at, patch, next), [], wire, EmptyConfig(), b,
                           now))
  {
    assert [] + [ActivateModified(ID)] == [ActivateModified(ID)] && [ActivateModified(ID)][1..] == []
           && wire + [] == wire;
    var polling := Stage(Polling(), IDLE, ARMED, [], b, last, at, patch, next);
    ModifyScene(s, Scene(polling, [], wire, EmptyConfig(), b, now), OnChange(0, true));
    var back := Stage(Watching(), IDLE, IDLE, [], b, last, at, patch, next);
    StartsWatching(b, last, at, patch, next, now);
    CallbackScene(t, Scene(back, [ActivateModified(ID)], wire, EmptyConfig(), b, now), Activation(false),
                  Outcome(Some(back), []), back);
  }

  /** The empty candidate gets a host name, which is noticed. */
  lemma NameAct(s: Server, t: Server, now: int, wire: seq<Message>, last: Selection, b: Selection, c: Selection,
                at: int, patch: nat, next: int)
    requires b == Render(EmptyConfig()) && c == Render(Named("edge"))
    requires Shows(s, Scene(Stage(Watching(), IDLE, IDLE, [], b, last, at, patch, next), [], wire, EmptyConfig(), b,
                            now))
    requires t == StepEdit(s, SID, Candidate, Naming("edge"), false, false, [])
    ensures Shows(t, Scene(Stage(Watching(), ARMED, IDLE, Diff(b, c, []), c, last, at, patch, next), [],
                           wire, Named("edge"), c, now))
    ensures Diff(b, c, []) != []
  {
    HostnamesDiffer(EmptyConfig(), Named("edge"), b, c);
    Notices(b, c, Diff(b, c, []), last, at, patch, next, now);
    NameScene(s, Scene(Stage(Watching(), IDLE, IDLE, [], b, last, at, patch, next), [], wire, EmptyConfig(), b, now),
              "edge", c,
              Stage(Watching(), ARMED, IDLE, Diff(b, c, []), c, last, at, patch, next));
  }

  /** The change timer fires and the queue is pushed. */
  lemma PushAct(s: Server, t: Server, now: int, wire: seq<Message>, pending: seq<Edit>, last: Selection, c: Selection,
                config: Config, at: int, patch: nat, next: int)
    requires pending != [] && at <= now && patch < PATCH_IDS - 1
    requires Shows(s, Scene(Stage(Watching(), ARMED, IDLE, pending, c, last, at, patch, next), [], wire, config, c,
                            now))
    requires t == StepChangeTimer(s, SID, ID)
    ensures Shows(t, Scene(Stage(Watching(), IDLE, IDLE, [], c, c, now, patch + 1, next), [],
                           wire + [PushChangeUpdate(ID, now, patch, pending)], config, c, now))
  {
    PushesChange(pending, c, last, at, patch, next, now);
    var after := Stage(Watching(), IDLE, IDLE, [], c, c, now, patch + 1, next);
    ChangeScene(s, Scene(Stage(Watching(), ARMED, IDLE, pending, c, last, at, patch, next), [], wire, config, c, now),
                Outcome(Some(after), [PushChangeUpdate(ID, now, patch, pending)]), after);
  }

  /** The update timer fires when the next update is due, and the selection is pushed. */
  lemma TickAct(s: Server, t: Server, now: int, wire: seq<Message>, last: Selection, b: Selection, at: int,
                patch: nat, next: int)
    requires next <= now
    requires Shows(s, Scene(Stage(Polling(), IDLE, ARMED, [], b, last, at, patch, next), [], wire, EmptyConfig(), b,
                            now))
    requires t == StepUpdateTimer(s, SID, ID)
    ensures Shows(t, Scene(Stage(Polling(), IDLE, ARMED, [], b, b, now, patch, NextUpdateAt(next, 1000, now)), [],
                           wire + [PushUpdate(ID, now, b, false)], EmptyConfig(), b, now))
  {
    PushesTick(b, last, at, patch, next, now);
    var after := Stage(Polling(), IDLE, ARMED, [], b, b, now, patch, NextUpdateAt(next, 1000, now));
    UpdateScene(s, Scene(Stage(Polling(), IDLE, ARMED, [], b, last, at, patch, next), [], wire, EmptyConfig(), b, now),
                Outcome(Some(after), [PushUpdate(ID, now, b, false)]), after);
  }

  // ------------------------------------------------------------------ the run

  /** The states of a run, computed from its first state and its events. */
  ghost function Unfold(s: Server, events: seq<Event>): (states: seq<Server>)
    ensures |states| == |events| + 1 && states[0] == s
    ensures forall i :: 0 <= i < |events| ==> states[i + 1] == Step(states[i], events[i])
    decreases |events|
  {
    if events == [] then [s] else [s] + Unfold(Step(s, events[0]), events[1..])
  }
}
