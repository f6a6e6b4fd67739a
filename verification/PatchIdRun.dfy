/** A run in which a push-update does not restart the patch ids: it is sent under a periodic trigger, to which the
    client had switched for a while. */
module PatchIdRun {
  import opened Options
  import opened SelectionDiff
  import opened EditConfig
  import opened YangPush
  import opened NetconfServer
  import opened ServerRuns
  import opened Scenes

  function Story(now: int): seq<Event> {
    [Event.Open, EstablishSub(SID, Watching(), None), WriteDone(SID), DeleteConfig(SID, Candidate, []),
     ChangeTimer(SID, ID),
     ModifySub(SID, ID, Polling(), None), WriteDone(SID), Clock(now + 1000), UpdateTimer(SID, ID),
     ModifySub(SID, ID, Watching(), None), WriteDone(SID),
     Event.Edit(SID, Candidate, Naming("edge"), false, false, []), ChangeTimer(SID, ID)]
  }

  ghost predicate Follows(states: seq<Server>, now: int) {
    |states| == 14 && forall i :: 0 <= i < 13 ==> states[i + 1] == Step(states[i], Story(now)[i])
  }

  lemma StoryBegins(states: seq<Server>, now: int)
    requires Follows(states, now)
    ensures states[2] == StepEstablish(StepOpen(states[0]), SID, Watching(), None)
    ensures states[3] == StepWriteDone(states[2], SID)
    ensures states[4] == StepDeleteConfig(states[3], SID, Candidate, [])
  {
    assert states[0 + 1] == Step(states[0], Story(now)[0]);
    assert states[1 + 1] == Step(states[1], Story(now)[1]);
    assert states[2 + 1] == Step(states[2], Story(now)[2]);
    assert states[3 + 1] == Step(states[3], Story(now)[3]);
  }

  lemma StoryTurns(states: seq<Server>, now: int)
    requires Follows(states, now)
    ensures states[5] == StepChangeTimer(states[4], SID, ID)
    ensures states[6] == StepModify(states[5], SID, ID, Polling(), None)
    ensures states[7] == StepWriteDone(states[6], SID)
  {
    assert states[4 + 1] == Step(states[4], Story(now)[4]);
    assert states[5 + 1] == Step(states[5], Story(now)[5]);
    assert states[6 + 1] == Step(states[6], Story(now)[6]);
  }

  lemma ClockMoves(states: seq<Server>, now: int)
    requires Follows(states, now)
    ensures states[8] == Step(states[7], Clock(now + 1000))
  {
    assert states[7 + 1] == Step(states[7], Story(now)[7]);
  }

  lemma StoryGoesOn(states: seq<Server>, now: int)
    requires Follows(states, now)
    ensures states[9] == StepUpdateTimer(states[8], SID, ID)
    ensures states[10] == StepModify(states[9], SID, ID, Watching(), None)
    ensures states[11] == StepWriteDone(states[10], SID)
  {
    assert states[8 + 1] == Step(states[8], Story(now)[8]);
    assert states[9 + 1] == Step(states[9], Story(now)[9]);
    assert states[10 + 1] == Step(states[10], Story(now)[10]);
  }

  lemma StoryEnds(states: seq<Server>, now: int)
    requires Follows(states, now)
    ensures states[12] == StepEdit(states[11], SID, Candidate, Naming("edge"), false, false, [])
    ensures states[13] == StepChangeTimer(states[12], SID, ID)
  {
    assert states[11 + 1] == Step(states[11], Story(now)[11]);
    assert states[12 + 1] == Step(states[12], Story(now)[12]);
  }

  /** What has been sent by the time the client is polling and the clock has moved on. */
  lemma FirstHalf(states: seq<Server>, now: int, a: Selection, b: Selection)
    requires Follows(states, now) && states[0] == InitialServer(now)
    requires a == Render(InitialConfig()) && b == Render(EmptyConfig())
    ensures Shows(states[8], Scene(Stage(Polling(), IDLE, ARMED, [], b, b, now, 1, now + 1000), [],
                                   [PushUpdate(ID, now, a, true), PushChangeUpdate(ID, now, 0, Diff(a, b, []))],
                                   EmptyConfig(), b, now + 1000))
  {
    StoryBegins(states, now);
    FirstAct(states[2], states[3], states[4], now, a, b);
    StoryTurns(states, now);
    ClockMoves(states, now);
    Polled(states[4], states[5], states[6], states[7], states[8], now, a, b);
  }

  lemma Polled(s4: Server, s5: Server, s6: Server, s7: Server, s8: Server, now: int, a: Selection, b: Selection)
    requires Diff(a, b, []) != []
    requires Shows(s4, Scene(Stage(Watching(), ARMED, IDLE, Diff(a, b, []), b, a, now, 0, 0), [],
                             [PushUpdate(ID, now, a, true)], EmptyConfig(), b, now))
    requires s5 == StepChangeTimer(s4, SID, ID) && s6 == StepModify(s5, SID, ID, Polling(), None)
    requires s7 == StepWriteDone(s6, SID) && s8 == Step(s7, Clock(now + 1000))
    ensures Shows(s8, Scene(Stage(Polling(), IDLE, ARMED, [], b, b, now, 1, now + 1000), [],
                            [PushUpdate(ID, now, a, true), PushChangeUpdate(ID, now, 0, Diff(a, b, []))],
                            EmptyConfig(), b, now + 1000))
  {
    var wire := [PushUpdate(ID, now, a, true), PushChangeUpdate(ID, now, 0, Diff(a, b, []))];
    assert [PushUpdate(ID, now, a, true)] + [PushChangeUpdate(ID, now, 0, Diff(a, b, []))] == wire;
    PushAct(s4, s5, now, [PushUpdate(ID, now, a, true)], Diff(a, b, []), a, b, EmptyConfig(), now, 0, 0);
    PollAct(s5, s6, s7, now, wire, IDLE, [], b, b, now, 1, 0);
    ClockScene(s7, Scene(Stage(Polling(), IDLE, ARMED, [], b, b, now, 1, now + 1000), [], wire, EmptyConfig(), b,
                         now), now + 1000);
  }

  /** The last two messages are a push-update and a change update of the same subscription, and the patch id of
      the change update is not 0. */
  ghost predicate DoesNotRestart(wire: seq<Message>, id: nat) {
    && |wire| >= 2
    && var update, change := wire[|wire| - 2], wire[|wire| - 1];
    update.PushUpdate? && change.PushChangeUpdate? && update.id == id && change.id == id && change.patch != 0
  }

  lemma LastTwo(wire: seq<Message>, update: Message, change: Message, id: nat)
    requires update.PushUpdate? && change.PushChangeUpdate? && update.id == id && change.id == id && change.patch != 0
    ensures DoesNotRestart(wire + [update] + [change], id)
  {
  }

  lemma SecondHalf(s8: Server, s9: Server, s10: Server, s11: Server, s12: Server, s13: Server,
                   now: int, wire: seq<Message>, b: Selection, c: Selection, at: int)
    requires b == Render(EmptyConfig()) && c == Render(Named("edge"))
    requires Shows(s8, Scene(Stage(Polling(), IDLE, ARMED, [], b, b, at, 1, now), [], wire, EmptyConfig(), b, now))
    requires s9 == StepUpdateTimer(s8, SID, ID) && s10 == StepModify(s9, SID, ID, Watching(), None)
    requires s11 == StepWriteDone(s10, SID) && s12 == StepEdit(s11, SID, Candidate, Naming("edge"), false, false, [])
    requires s13 == StepChangeTimer(s12, SID, ID)
    ensures DoesNotRestart(s13.wire, ID)
  {
    var next, ticked := NextUpdateAt(now, 1000, now), wire + [PushUpdate(ID, now, b, false)];
    TickAct(s8, s9, now, wire, b, b, at, 1, now);
    WatchAct(s9, s10, s11, now, ticked, b, b, now, 1, next);
    NameAct(s11, s12, now, ticked, b, b, c, now, 1, next);
    PushAct(s12, s13, now, ticked, Diff(b, c, []), b, c, Named("edge"), now, 1, next);
    LastTwo(wire, PushUpdate(ID, now, b, false), PushChangeUpdate(ID, now, 1, Diff(b, c, [])), ID);
  }

  lemma StoryUnfolds(states: seq<Server>, now: int)
    requires states == Unfold(InitialServer(now), Story(now))
    ensures IsRun(states, Story(now)) && Follows(states, now) && states[0] == InitialServer(now)
  {
  }

  lemma StoryTold(states: seq<Server>, now: int, a: Selection, b: Selection, c: Selection)
    requires Follows(states, now) && states[0] == InitialServer(now) && Contents(a, b, c)
    ensures DoesNotRestart(states[13].wire, ID)
  {
    FirstHalf(states, now, a, b);
    StoryGoesOn(states, now);
    StoryEnds(states, now);
    SecondHalf(states[8], states[9], states[10], states[11], states[12], states[13], now + 1000,
               [PushUpdate(ID, now, a, true), PushChangeUpdate(ID, now, 0, Diff(a, b, []))], b, c, now);
  }

  /** From every starting time there is a run in which a change update right after a push-update has a patch id
      other than 0. */
  lemma SomePatchIdDoesNotRestart(now: int)
    ensures exists states: seq<Server>, events: seq<Event> ::
              IsRun(states, events) && |events| == 13 && states[0] == InitialServer(now)
                  && DoesNotRestart(states[13].wire, ID)
  {
    var states := Unfold(InitialServer(now), Story(now));
    StoryUnfolds(states, now);
    RenderWellFormedIff(InitialConfig());
    RenderWellFormedIff(EmptyConfig());
    RenderWellFormedIff(Named("edge"));
    StoryTold(states, now, Render(InitialConfig()), Render(EmptyConfig()), Render(Named("edge")));
  }
}
