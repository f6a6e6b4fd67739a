/** A run in which two processes find a dead owner's lock. Both judge it stale; the first removes it and takes the
    lock itself, and the second then removes that one. */
module RobbedLockRun {
  import opened Options
  import opened RebuildLock

  // ------------------------------------------------------------- finite runs

  /** The states of a run, computed from its first state and its events. */
  function Unfold(s: State, events: seq<Event>): (states: seq<State>)
    ensures |states| == |events| + 1 && states[0] == s
    ensures forall i :: 0 <= i < |events| ==> states[i + 1] == Step(states[i], events[i])
    decreases |events|
  {
    if events == [] then [s] else [s] + Unfold(Step(s, events[0]), events[1..])
  }

  function End(s: State, events: seq<Event>): State
    decreases |events|
  {
    if events == [] then s else End(Step(s, events[0]), events[1..])
  }

  lemma {:induction false} EndOf(s: State, events: seq<Event>, k: nat)
    requires k <= |events|
    ensures Unfold(s, events)[k] == End(s, events[..k])
    decreases |events|
  {
    if k > 0 {
      assert events[..k][1..] == events[1..][..k - 1];
      EndOf(Step(s, events[0]), events[1..], k - 1);
    }
  }

  lemma {:induction false} EndAppend(s: State, a: seq<Event>, b: seq<Event>)
    ensures End(s, a + b) == End(End(s, a), b)
    decreases |a|
  {
    if a == [] {
      assert a + b == b;
    } else {
      assert (a + b)[1..] == a[1..] + b;
      EndAppend(Step(s, a[0]), a[1..], b);
    }
  }

  lemma EndCons(s: State, e: Event, rest: seq<Event>)
    ensures End(s, [e] + rest) == End(Step(s, e), rest)
  {
    assert ([e] + rest)[1..] == rest;
  }

  lemma EndOfTwo(s: State, a: Event, b: Event)
    ensures End(s, [a, b]) == Step(Step(s, a), b)
  {
    EndCons(s, a, [b]);
    EndCons(Step(s, a), b, []);
    assert [a, b] == [a] + [b] && [b] == [b] + [];
  }

  lemma EndOfThree(s: State, a: Event, b: Event, c: Event)
    ensures End(s, [a, b, c]) == Step(Step(Step(s, a), b), c)
  {
    EndCons(s, a, [b, c]);
    EndOfTwo(Step(s, a), b, c);
    assert [a, b, c] == [a] + [b, c];
  }

  // -------------------------------------------------------------------- acts

  /** All processes but one are as before. */
  ghost predicate Elsewhere(s: State, t: State, p: nat) {
    t.now == s.now && forall q: nat :: q != p ==> Proc(t, q) == Proc(s, q)
  }

  function Enters(p: nat, token: nat): seq<Event> {
    [Begin(p), Exists(p), Open(p, token)]
  }

  lemma EntersFree(s: State, p: nat, token: nat)
    requires Proc(s, p).phase.Idle? && s.lock.None?
    ensures var t := End(s, Enters(p, token));
            && Proc(t, p).phase.WriteLock? && Proc(t, p).token == token && t.lock == Some(LockFile(p, s.now, None))
            && Elsewhere(s, t, p)
  {
    EndOfThree(s, Begin(p), Exists(p), Open(p, token));
  }

  /** A process takes a free lock, writes it, and dies. */
  lemma DiesInside(s: State, p: nat, token: nat)
    requires Proc(s, p).phase.Idle? && s.lock.None?
    ensures var t := End(s, Enters(p, token) + [Write(p, true), Crash(p)]);
            && t.lock == Some(LockFile(p, s.now, Some(Note(p, s.now, token))))
            && !Running(t, p) && Elsewhere(s, t, p)
  {
    EntersFree(s, p, token);
    EndAppend(s, Enters(p, token), [Write(p, true), Crash(p)]);
    EndOfTwo(End(s, Enters(p, token)), Write(p, true), Crash(p));
  }

  function Finds(p: nat): seq<Event> {
    [Begin(p), Exists(p), Stat(p)]
  }

  function Judges(p: nat): seq<Event> {
    Finds(p) + [Read(p), Judge(p)]
  }

  lemma FindsLock(s: State, p: nat)
    requires Proc(s, p).phase.Idle? && s.lock.Some?
    ensures var t := End(s, Finds(p)); Proc(t, p).phase.ReadLock? && t.lock == s.lock && Elsewhere(s, t, p)
  {
    EndOfThree(s, Begin(p), Exists(p), Stat(p));
  }

  /** A process finds the lock of a dead one and judges it stale. */
  lemma JudgesStale(s: State, p: nat, dead: nat)
    requires Proc(s, p).phase.Idle? && p != dead && !Running(s, dead)
    requires s.lock.Some? && s.lock.value.note.Some? && s.lock.value.note.value.pid == dead
    ensures var t := End(s, Judges(p)); Proc(t, p).phase.UnlinkStale? && t.lock == s.lock && Elsewhere(s, t, p)
  {
    FindsLock(s, p);
    EndAppend(s, Finds(p), [Read(p), Judge(p)]);
    EndOfTwo(End(s, Finds(p)), Read(p), Judge(p));
  }

  function Takes(p: nat, token: nat): seq<Event> {
    [StaleUnlink(p), Exists(p), Open(p, token)]
  }

  /** A process removes what it takes for a stale lock and creates its own. */
  lemma TakesOver(s: State, p: nat, token: nat)
    requires Proc(s, p).phase.UnlinkStale?
    ensures var t := End(s, Takes(p, token));
            Proc(t, p).phase.WriteLock? && t.lock == Some(LockFile(p, s.now, None)) && Elsewhere(s, t, p)
  {
    EndOfThree(s, StaleUnlink(p), Exists(p), Open(p, token));
  }

  // ------------------------------------------------------------------ the run

  function Opening(): seq<Event> {
    Enters(0, 7) + [Write(0, true), Crash(0)]
  }

  function Story(): seq<Event> {
    Opening() + Judges(1) + Judges(2) + Takes(1, 8) + Takes(2, 9)
  }

  function Beginning(now: int, files: Pair): State {
    State(now, None, files, map[], files, {})
  }

  lemma StoryTold(now: int, files: Pair, before: State, t: State)
    requires before == End(Beginning(now, files), Opening() + Judges(1) + Judges(2) + Takes(1, 8))
    requires t == End(Beginning(now, files), Story())
    ensures RobsOwner(before, StaleUnlink(2))
    ensures Inside(Proc(t, 1).phase) && Inside(Proc(t, 2).phase)
  {
    var s := Beginning(now, files);
    var dead := End(s, Opening());
    DiesInside(s, 0, 7);
    var first := End(dead, Judges(1));
    JudgesStale(dead, 1, 0);
    EndAppend(s, Opening(), Judges(1));
    var second := End(first, Judges(2));
    JudgesStale(first, 2, 0);
    EndAppend(s, Opening() + Judges(1), Judges(2));
    TakesOver(second, 1, 8);
    EndAppend(s, Opening() + Judges(1) + Judges(2), Takes(1, 8));
    TakesOver(before, 2, 9);
    EndAppend(s, Opening() + Judges(1) + Judges(2) + Takes(1, 8), Takes(2, 9));
  }

  lemma StoryLength()
    ensures |Opening()| == 5 && |Story()| == 21 && Story()[18] == StaleUnlink(2)
    ensures Story()[..18] == Opening() + Judges(1) + Judges(2) + Takes(1, 8) && Story()[..21] == Story()
  {
  }

  /** From every beginning there is a run of twenty-one calls in which an owner that is alive and inside is robbed,
      and two processes end up inside. */
  lemma SomeOwnerIsRobbed(now: int, files: Pair)
    ensures exists states: seq<State>, events: seq<Event> ::
              && IsRun(states, events) && |events| == 21 && states[0] == Beginning(now, files)
              && RobsOwner(states[18], events[18])
              && Inside(Proc(states[21], 1).phase) && Inside(Proc(states[21], 2).phase)
  {
    var s, events := Beginning(now, files), Story();
    var states := Unfold(s, events);
    StoryLength();
    EndOf(s, events, 18);
    EndOf(s, events, 21);
    StoryTold(now, files, states[18], states[21]);
    assert IsRun(states, events);
  }
}
