/** What a whole rebuild leaves behind, told by the calls of the run: a pair that was built, validated and verified,
    or the one that was there when the lock was taken. */
module RebuildRuns {
  import opened Options
  import opened RebuildLock

  /** Call `i` is not of the kind the guarantee excludes. */
  ghost predicate Ordinary(states: seq<State>, events: seq<Event>, i: nat) {
    i < |events| && i < |states| && !Excluded(states[i], events[i])
  }

  /** A run whose first `k` calls are ordinary. */
  ghost predicate Sound(states: seq<State>, events: seq<Event>, k: nat) {
    IsRun(states, events) && k < |states| && forall i: nat :: i < k ==> Ordinary(states, events, i)
  }

  ghost predicate InsideAt(states: seq<State>, n: nat, p: nat) {
    n < |states| && Inside(Proc(states[n], p).phase)
  }

  lemma SoundKeepsInv(states: seq<State>, events: seq<Event>, k: nat)
    requires Sound(states, events, k)
    ensures Inv(states[k]) && states[k].initial == states[0].files
  {
    forall i | 0 <= i < k ensures !Excluded(states[i], events[i]) {
      assert Ordinary(states, events, i);
    }
    RunKeepsInv(states, events, k);
  }

  lemma NextState(states: seq<State>, events: seq<Event>, k: nat)
    requires Sound(states, events, k + 1)
    ensures Exclusive(states[k]) && states[k + 1] == Step(states[k], events[k]) && !Excluded(states[k], events[k])
  {
    assert Ordinary(states, events, k);
    SoundKeepsInv(states, events, k);
  }

  lemma SoundUpTo(states: seq<State>, events: seq<Event>, n: nat, k: nat)
    requires Sound(states, events, k) && n <= k
    ensures Sound(states, events, n)
  {
  }

  /** While a process is inside, no other touches the runtime files or its own record. */
  lemma OthersWait(s: State, e: Event, p: nat)
    requires Exclusive(s) && Inside(Proc(s, p).phase) && e.p != p
    ensures Step(s, e).files == s.files && Proc(Step(s, e), p) == Proc(s, p)
  {
    OthersStay(s, e, p);
    assert !Inside(Proc(s, e.p).phase);
    OutsidersTouchNothing(s, e);
  }

  /** The verdict that a rebuild has failed. */
  ghost predicate Fails(s: State, e: Event) {
    || (e == BuildEnds(e.p, false) && Proc(s, e.p).phase.Build?)
    || (e == ValidateOutput(e.p) && Proc(s, e.p).phase.Validate?
        && !(s.files.binding.Some? && s.files.binding.value.contents != []))
    || (e == VerifyRuntime(e.p, false) && Proc(s, e.p).phase.Verify?)
  }

  ghost predicate Succeeds(s: State, e: Event) {
    e == VerifyRuntime(e.p, true) && Proc(s, e.p).phase.Verify?
  }

  ghost predicate FailsAt(states: seq<State>, events: seq<Event>, i: nat, p: nat) {
    i < |states| && i < |events| && events[i].p == p && Fails(states[i], events[i])
  }

  ghost predicate SucceedsAt(states: seq<State>, events: seq<Event>, i: nat, p: nat) {
    i < |states| && i < |events| && events[i].p == p && Succeeds(states[i], events[i])
  }

  // ------------------------------------------------------- completed rebuilds

  /** Process `p` ended its build without an error, validated the output and verified it, and left it alone. */
  ghost predicate Completed(states: seq<State>, events: seq<Event>, a: nat, b: nat, c: nat, p: nat, files: Pair) {
    && a < b < c < |events| <= |states|
    && events[a] == BuildEnds(p, true) && Proc(states[a], p).phase.Build? && states[a].files == files
    && events[b] == ValidateOutput(p) && Proc(states[b], p).phase.Validate? && states[b].files == files
    && files.binding.Some? && files.binding.value.contents != []
    && events[c] == VerifyRuntime(p, true) && Proc(states[c], p).phase.Verify? && states[c].files == files
  }

  /** Some rebuild completed with this pair before state `k`. */
  ghost predicate CompletedBefore(states: seq<State>, events: seq<Event>, k: nat, files: Pair) {
    exists a: nat, b: nat, c: nat, p: nat :: c < k && Completed(states, events, a, b, c, p, files)
  }

  lemma BuildSteps(s: State, e: Event, t: State)
    requires t == Step(s, e)
    ensures Proc(t, e.p).phase.Validate? ==>
              t.files == s.files
              && (Proc(s, e.p).phase.Validate? || (e == BuildEnds(e.p, true) && Proc(s, e.p).phase.Build?))
    ensures Proc(t, e.p).phase.Verify? ==>
              t.files == s.files
              && (Proc(s, e.p).phase.Verify?
                  || (e == ValidateOutput(e.p) && Proc(s, e.p).phase.Validate? && s.files.binding.Some?
                      && s.files.binding.value.contents != []))
    ensures forall v :: v in t.validated ==>
              v in s.validated || (e == VerifyRuntime(e.p, true) && Proc(s, e.p).phase.Verify? && v == s.files)
  {
  }

  lemma {:induction false} BuiltBefore(states: seq<State>, events: seq<Event>, k: nat, p: nat) returns (a: nat)
    requires Sound(states, events, k) && Proc(states[k], p).phase.Validate?
    ensures a < k && events[a] == BuildEnds(p, true) && Proc(states[a], p).phase.Build?
    ensures states[a].files == states[k].files
    decreases k
  {
    assert k > 0;
    NextState(states, events, k - 1);
    SoundUpTo(states, events, k - 1, k);
    var s, e := states[k - 1], events[k - 1];
    if e.p != p {
      OthersStay(s, e, p);
      OthersWait(s, e, p);
      a := BuiltBefore(states, events, k - 1, p);
    } else {
      BuildSteps(s, e, states[k]);
      if Proc(s, p).phase.Validate? {
        a := BuiltBefore(states, events, k - 1, p);
      } else {
        a := k - 1;
      }
    }
  }

  lemma {:induction false} ValidatedBefore(states: seq<State>, events: seq<Event>, k: nat, p: nat) returns (b: nat)
    requires Sound(states, events, k) && Proc(states[k], p).phase.Verify?
    ensures b < k && events[b] == ValidateOutput(p) && Proc(states[b], p).phase.Validate?
    ensures states[b].files == states[k].files
    ensures states[k].files.binding.Some? && states[k].files.binding.value.contents != []
    decreases k
  {
    assert k > 0;
    NextState(states, events, k - 1);
    SoundUpTo(states, events, k - 1, k);
    var s, e := states[k - 1], events[k - 1];
    if e.p != p {
      OthersStay(s, e, p);
      OthersWait(s, e, p);
      b := ValidatedBefore(states, events, k - 1, p);
    } else {
      BuildSteps(s, e, states[k]);
      if Proc(s, p).phase.Verify? {
        b := ValidatedBefore(states, events, k - 1, p);
      } else {
        b := k - 1;
      }
    }
  }

  lemma CompletesNow(states: seq<State>, events: seq<Event>, c: nat, p: nat)
    requires Sound(states, events, c) && SucceedsAt(states, events, c, p)
    ensures CompletedBefore(states, events, c + 1, states[c].files)
  {
    var b := ValidatedBefore(states, events, c, p);
    SoundUpTo(states, events, b, c);
    var a := BuiltBefore(states, events, b, p);
    assert Completed(states, events, a, b, c, p, states[c].files);
  }

  lemma HistoryStep(states: seq<State>, events: seq<Event>, k: nat, files: Pair)
    requires Sound(states, events, k + 1) && files in states[k + 1].validated
    ensures files in states[k].validated || (SucceedsAt(states, events, k, events[k].p) && states[k].files == files)
  {
    NextState(states, events, k);
    BuildSteps(states[k], events[k], states[k + 1]);
  }

  /** The history holds nothing but completed rebuilds. */
  lemma {:induction false} HistoryIsCompleted(states: seq<State>, events: seq<Event>, k: nat, files: Pair)
    requires Sound(states, events, k) && files in states[k].validated
    ensures CompletedBefore(states, events, k, files)
    decreases k
  {
    assert k > 0;
    SoundUpTo(states, events, k - 1, k);
    HistoryStep(states, events, k - 1, files);
    if files in states[k - 1].validated {
      HistoryIsCompleted(states, events, k - 1, files);
    } else {
      CompletesNow(states, events, k - 1, events[k - 1].p);
    }
  }

  /** Whenever the lock is free, the runtime pair is the one the run began with, or that of a rebuild that was
      built, validated and verified before. */
  lemma RebuildsAreAllOrNothing(states: seq<State>, events: seq<Event>, k: nat)
    requires Sound(states, events, k) && states[k].lock.None?
    ensures states[k].files == states[0].files || CompletedBefore(states, events, k, states[k].files)
  {
    SoundKeepsInv(states, events, k);
    if states[k].files != states[0].files {
      HistoryIsCompleted(states, events, k, states[k].files);
    }
  }

  // ---------------------------------------------------------- failed rebuilds

  /** What a process inside has kept of the pair it found: the files themselves, or its snapshot. */
  ghost predicate Kept(s: State, me: Process, pair: Pair) {
    match me.phase
    case WriteLock | StatBinding => s.files == pair
    case ReadBinding => s.files == pair && pair.binding.Some? && me.mode == pair.binding.value.mode
    case StatMeta => s.files == pair && me.snapshot.binding == pair.binding
    case ReadMeta => s.files == pair && me.snapshot.binding == pair.binding
                     && pair.meta.Some? && me.mode == pair.meta.value.mode
    case Build | Validate | Verify => me.snapshot == pair
    case _ => Restored(s, me, pair)
  }

  /** How far a restore has come. */
  ghost predicate Restored(s: State, me: Process, pair: Pair) {
    match me.phase
    case RestoreBinding => me.snapshot == pair
    case ChmodBinding => me.snapshot == pair && pair.binding.Some? && s.files.binding.Some?
                         && s.files.binding.value.contents == pair.binding.value.contents
    case RestoreMeta => me.snapshot == pair && s.files.binding == pair.binding
    case ChmodMeta => me.snapshot == pair && s.files.binding == pair.binding && pair.meta.Some? && s.files.meta.Some?
                      && s.files.meta.value.contents == pair.meta.value.contents
    case ReleaseRead | ReleaseUnlink => s.files == pair
    case _ => false
  }

  /** A process inside keeps the pair it found through all its calls, until it succeeds. */
  ghost predicate KeptOn(s: State, e: Event, t: State, pair: Pair) {
    && Kept(t, Proc(t, e.p), pair)
    && (Fails(s, e) || Restored(s, Proc(s, e.p), pair) ==> Restored(t, Proc(t, e.p), pair))
  }

  lemma SnapshotKeeps(s: State, e: Event, t: State, pair: Pair)
    requires Kept(s, Proc(s, e.p), pair) && e.Snapshot? && t == StepSnapshot(s, e.p, e.ok)
    requires Inside(Proc(s, e.p).phase) && Inside(Proc(t, e.p).phase)
    ensures KeptOn(s, e, t, pair)
  {
  }

  lemma RebuildKeeps(s: State, e: Event, t: State, pair: Pair)
    requires Kept(s, Proc(s, e.p), pair) && !Succeeds(s, e) && Inside(Proc(s, e.p).phase)
    requires (e.BuildWrites? || e.BuildEnds? || e.ValidateOutput? || e.VerifyRuntime?) && t == StepRebuild(s, e)
    ensures KeptOn(s, e, t, pair)
  {
  }

  lemma RestoreKeeps(s: State, e: Event, t: State, pair: Pair)
    requires Kept(s, Proc(s, e.p), pair) && Inside(Proc(s, e.p).phase)
    requires e.Restore? && e.ok && t == StepRestore(s, e)
    ensures KeptOn(s, e, t, pair)
  {
  }

  lemma OtherCallKeeps(s: State, e: Event, t: State, pair: Pair)
    requires Kept(s, Proc(s, e.p), pair) && !e.Restore? && !e.Snapshot?
    requires !(e.BuildWrites? || e.BuildEnds? || e.ValidateOutput? || e.VerifyRuntime?) && t == Step(s, e)
    requires Inside(Proc(s, e.p).phase) && Inside(Proc(t, e.p).phase)
    ensures KeptOn(s, e, t, pair)
  {
  }

  lemma OwnCallKeeps(s: State, e: Event, t: State, pair: Pair)
    requires Kept(s, Proc(s, e.p), pair) && !Excluded(s, e) && !Succeeds(s, e)
    requires t == Step(s, e) && Inside(Proc(s, e.p).phase) && Inside(Proc(t, e.p).phase)
    ensures KeptOn(s, e, t, pair)
  {
    if e.Snapshot? {
      SnapshotKeeps(s, e, t, pair);
    } else if e.Restore? {
      RestoreKeeps(s, e, t, pair);
    } else if e.BuildWrites? || e.BuildEnds? || e.ValidateOutput? || e.VerifyRuntime? {
      RebuildKeeps(s, e, t, pair);
    } else {
      OtherCallKeeps(s, e, t, pair);
    }
  }

  /** Process `p` takes the lock with call `j` and is inside up to state `k`. */
  ghost predicate InsideFrom(states: seq<State>, events: seq<Event>, j: nat, k: nat, p: nat) {
    && j < k < |states| && j < |events|
    && events[j].Open? && events[j].p == p && Proc(states[j], p).phase.OpenLock? && states[j].lock.None?
    && InsideThrough(states, j + 1, k, p)
  }

  predicate Releasing(phase: Phase) {
    phase.ReleaseRead? || phase.ReleaseUnlink?
  }

  /** The pair is kept, or the process is about to release the lock. */
  ghost predicate KeptOrOver(s: State, me: Process, pair: Pair) {
    Kept(s, me, pair) || Releasing(me.phase)
  }

  lemma ReleasingStays(s: State, e: Event, t: State)
    requires Releasing(Proc(s, e.p).phase) && t == Step(s, e) && Inside(Proc(t, e.p).phase)
    ensures Releasing(Proc(t, e.p).phase)
  {
  }

  lemma SuccessReleases(s: State, e: Event, t: State)
    requires Succeeds(s, e) && t == Step(s, e)
    ensures Releasing(Proc(t, e.p).phase) && t.files == s.files
  {
  }

  lemma KeepsOneStep(s: State, e: Event, t: State, p: nat, pair: Pair)
    requires Exclusive(s) && t == Step(s, e) && !Excluded(s, e) && KeptOrOver(s, Proc(s, p), pair)
    requires Inside(Proc(s, p).phase) && Inside(Proc(t, p).phase)
    ensures KeptOrOver(t, Proc(t, p), pair)
    ensures Restored(s, Proc(s, p), pair) || (e.p == p && Fails(s, e)) ==> Restored(t, Proc(t, p), pair)
  {
    if e.p != p {
      OthersWait(s, e, p);
    } else if Succeeds(s, e) {
      SuccessReleases(s, e, t);
    } else if Kept(s, Proc(s, p), pair) {
      OwnCallKeeps(s, e, t, pair);
    } else {
      ReleasingStays(s, e, t);
    }
  }

  lemma OpensWithFiles(s: State, e: Event, t: State)
    requires e.Open? && Proc(s, e.p).phase.OpenLock? && s.lock.None? && t == Step(s, e)
    ensures Kept(t, Proc(t, e.p), s.files)
  {
  }

  lemma Advances(states: seq<State>, events: seq<Event>, k: nat, p: nat, pair: Pair)
    requires Sound(states, events, k + 1) && InsideAt(states, k, p) && InsideAt(states, k + 1, p)
    requires KeptOrOver(states[k], Proc(states[k], p), pair)
    ensures KeptOrOver(states[k + 1], Proc(states[k + 1], p), pair)
    ensures Restored(states[k], Proc(states[k], p), pair) || FailsAt(states, events, k, p) ==>
              Restored(states[k + 1], Proc(states[k + 1], p), pair)
  {
    NextState(states, events, k);
    KeepsOneStep(states[k], events[k], states[k + 1], p, pair);
  }

  lemma Begins(states: seq<State>, events: seq<Event>, j: nat, k: nat, p: nat)
    requires Sound(states, events, k) && InsideFrom(states, events, j, k, p)
    ensures KeptOrOver(states[j + 1], Proc(states[j + 1], p), states[j].files)
  {
    OpensWithFiles(states[j], events[j], states[j + 1]);
  }

  ghost predicate InsideThrough(states: seq<State>, m: nat, n: nat, p: nat) {
    forall i: nat :: m <= i <= n ==> InsideAt(states, i, p)
  }

  lemma InsideUpTo(states: seq<State>, m: nat, k: nat, n: nat, p: nat)
    requires InsideThrough(states, m, n, p) && m <= k <= n
    ensures InsideThrough(states, m, k, p) && InsideAt(states, k, p) && InsideAt(states, n, p)
  {
  }

  lemma {:induction false} KeptThrough(states: seq<State>, events: seq<Event>, m: nat, n: nat, p: nat, pair: Pair)
    requires Sound(states, events, n) && m <= n && InsideThrough(states, m, n, p)
    requires KeptOrOver(states[m], Proc(states[m], p), pair)
    ensures KeptOrOver(states[n], Proc(states[n], p), pair)
    ensures Restored(states[m], Proc(states[m], p), pair) ==> Restored(states[n], Proc(states[n], p), pair)
    decreases n
  {
    if m < n {
      var k := n - 1;
      SoundUpTo(states, events, k, n);
      InsideUpTo(states, m, k, n, p);
      KeptThrough(states, events, m, k, p, pair);
      Advances(states, events, k, p, pair);
    }
  }

  /** A rebuild whose build, validation or verification failed puts back, contents and modes, exactly the pair that
      was there when it took the lock, and does so before it releases the lock. */
  lemma FailedRebuildRestores(states: seq<State>, events: seq<Event>, j: nat, i: nat, k: nat, p: nat)
    requires Sound(states, events, k) && InsideFrom(states, events, j, k, p)
    requires j < i < k && FailsAt(states, events, i, p) && Releasing(Proc(states[k], p).phase)
    ensures states[k].files == states[j].files
  {
    var pair := states[j].files;
    Begins(states, events, j, k, p);
    FailureRestores(states, events, j + 1, i, k, p, pair);
  }

  lemma FailureRestores(states: seq<State>, events: seq<Event>, m: nat, i: nat, k: nat, p: nat, pair: Pair)
    requires Sound(states, events, k) && m <= i < k && InsideThrough(states, m, k, p)
    requires KeptOrOver(states[m], Proc(states[m], p), pair) && FailsAt(states, events, i, p)
    ensures Restored(states[k], Proc(states[k], p), pair)
  {
    SoundUpTo(states, events, i, k);
    KeptThrough(states, events, m, i, p, pair);
    SoundUpTo(states, events, i + 1, k);
    assert InsideAt(states, i, p) && InsideAt(states, i + 1, p);
    Advances(states, events, i, p, pair);
    KeptThrough(states, events, i + 1, k, p, pair);
  }

  lemma KeepsOutput(s: State, e: Event, t: State, p: nat)
    requires Exclusive(s) && t == Step(s, e) && Releasing(Proc(s, p).phase) && Inside(Proc(t, p).phase)
    ensures Releasing(Proc(t, p).phase) && t.files == s.files
  {
    if e.p != p {
      OthersWait(s, e, p);
    } else {
      ReleasingStays(s, e, t);
      ReleasingWritesNothing(s, e, t);
    }
  }

  lemma {:induction false} OutputKept(states: seq<State>, events: seq<Event>, m: nat, n: nat, p: nat, files: Pair)
    requires Sound(states, events, n) && m <= n && InsideThrough(states, m, n, p)
    requires Releasing(Proc(states[m], p).phase) && states[m].files == files
    ensures Releasing(Proc(states[n], p).phase) && states[n].files == files
    decreases n
  {
    if m < n {
      SoundUpTo(states, events, n - 1, n);
      OutputKept(states, events, m, n - 1, p, files);
      NextState(states, events, n - 1);
      assert InsideAt(states, n, p);
      KeepsOutput(states[n - 1], events[n - 1], states[n], p);
    }
  }

  /** A rebuild that was verified keeps its output until it has released the lock. */
  lemma VerifiedRebuildStays(states: seq<State>, events: seq<Event>, i: nat, k: nat, p: nat)
    requires Sound(states, events, k) && i < k && SucceedsAt(states, events, i, p)
    requires InsideThrough(states, i + 1, k, p)
    ensures Releasing(Proc(states[k], p).phase) && states[k].files == states[i].files
  {
    SuccessReleases(states[i], events[i], states[i + 1]);
    OutputKept(states, events, i + 1, k, p, states[i].files);
  }

  lemma ReleasingWritesNothing(s: State, e: Event, t: State)
    requires Releasing(Proc(s, e.p).phase) && t == Step(s, e)
    ensures t.files == s.files
  {
  }

  // ------------------------------------------------------- taking and releasing

  /** Whoever has not been robbed frees the lock: a process that goes on from inside to the ordinary end leaves no
      lock behind. */
  lemma FinishedLeavesFree(states: seq<State>, events: seq<Event>, k: nat, p: nat)
    requires IsRun(states, events) && k < |events|
    requires forall i :: 0 <= i < k ==> !RobsOwner(states[i], events[i])
    requires !Proc(states[k], p).phase.Done? && Proc(states[k + 1], p).phase.Done?
    ensures events[k] == Release(p) && states[k].lock.Some? && states[k].lock.value.creator == p
    ensures states[k + 1].lock.None? && states[k + 1].files == states[k].files
  {
    MutualExclusion(states, events, k);
    FinishingSteps(states[k], events[k], states[k + 1], p);
  }

  lemma FinishingSteps(s: State, e: Event, t: State, p: nat)
    requires Exclusive(s) && t == Step(s, e) && !Proc(s, p).phase.Done? && Proc(t, p).phase.Done?
    ensures e == Release(p) && s.lock.Some? && s.lock.value.creator == p && t.lock.None? && t.files == s.files
  {
    if e.p != p {
      OthersStay(s, e, p);
    }
  }

  /** A call that fails before the build ends the process with its lock left behind, and a restore that fails still
      goes on to release the lock; neither touches the runtime files. */
  lemma FailedCalls(states: seq<State>, events: seq<Event>, k: nat, p: nat)
    requires IsRun(states, events) && k < |events|
    requires forall i :: 0 <= i < k ==> !RobsOwner(states[i], events[i])
    requires events[k] in {Write(p, false), Snapshot(p, false), Restore(p, false)}
    requires NextCall(Proc(states[k], p).phase, p) == events[k].(ok := true)
    ensures Proc(states[k + 1], p).phase == if events[k].Restore? then ReleaseRead else Failed
    ensures states[k + 1].lock == states[k].lock && states[k].lock.Some? && states[k].lock.value.creator == p
    ensures states[k + 1].files == states[k].files
  {
    MutualExclusion(states, events, k);
    assert Inside(Proc(states[k], p).phase);
  }

  /** A file that is there is restored by two calls, its contents first and its mode after; one that is not there is
      created with its mode; one that was not there is removed. */
  lemma RestoredStepwise(s: State, p: nat)
    requires Proc(s, p).phase.RestoreBinding?
    ensures var t, saved := Step(s, Restore(p, true)), Proc(s, p).snapshot.binding;
            && t.files.meta == s.files.meta
            && (saved.None? ==> t.files.binding == None)
            && (saved.Some? ==>
                  t.files.binding
                  == Some(File(saved.value.contents,
                               if s.files.binding.Some? then s.files.binding.value.mode else saved.value.mode)))
            && (saved.Some? ==> Step(t, Restore(p, true)).files.binding == saved)
  {
  }

  /** A process comes to try and create the lock only by a look that found none; a new look follows every sleep, every
      removal of a stale lock and every lock that was gone before it could be judged. */
  lemma LooksBeforeOpening(s: State, e: Event, p: nat)
    requires !Proc(s, p).phase.OpenLock? && Proc(Step(s, e), p).phase.OpenLock?
    ensures e == Exists(p) && Proc(s, p).phase.CheckExists? && s.lock.None?
  {
    if e.p != p {
      OthersStay(s, e, p);
    }
  }

  /** No process is ever stuck: until it is done, has failed or crashed, some call of its own moves it on. */
  lemma NeverStuck(s: State, p: nat)
    requires !Proc(s, p).phase.Done? && !Proc(s, p).phase.Failed? && !Proc(s, p).phase.Crashed?
    ensures exists e: Event :: e.p == p && !e.Crash? && Proc(Step(s, e), p).phase != Proc(s, p).phase
  {
    var e := NextCall(Proc(s, p).phase, p);
    assert Proc(Step(s, e), p).phase != Proc(s, p).phase;
  }

  function NextCall(phase: Phase, p: nat): Event {
    match phase
    case Idle => Begin(p)
    case CheckExists => Exists(p)
    case StatLock => Stat(p)
    case ReadLock => Read(p)
    case JudgeLock => Judge(p)
    case UnlinkStale => StaleUnlink(p)
    case Sleep => Wake(p)
    case OpenLock => Open(p, 0)
    case WriteLock => Write(p, true)
    case StatBinding | ReadBinding | StatMeta | ReadMeta => Snapshot(p, true)
    case Build => BuildEnds(p, true)
    case Validate => ValidateOutput(p)
    case Verify => VerifyRuntime(p, true)
    case RestoreBinding | ChmodBinding | RestoreMeta | ChmodMeta => Restore(p, true)
    case _ => Release(p)
  }

  // ------------------------------------------------------------------- verdicts

  /** Process `p` makes no call after `a` and before `b`. */
  ghost predicate Pauses(events: seq<Event>, a: nat, b: nat, p: nat) {
    forall n :: a < n < b && n < |events| && events[n].p == p ==> events[n].Clock?
  }

  lemma ClockMovesNobody(s: State, e: Event, q: nat)
    requires e.Clock?
    ensures Proc(Step(s, e), q) == Proc(s, q)
  {
  }

  lemma {:induction false} PausingChangesNothing(states: seq<State>, events: seq<Event>, a: nat, b: nat, p: nat)
    requires IsRun(states, events) && a < b < |states| && Pauses(events, a, b, p)
    ensures Proc(states[b], p) == Proc(states[a + 1], p)
    decreases b
  {
    if a + 1 < b {
      PausingChangesNothing(states, events, a, b - 1, p);
      assert states[b - 1 + 1] == Step(states[b - 1], events[b - 1]);
      if events[b - 1].p != p {
        OthersStay(states[b - 1], events[b - 1], p);
      } else {
        ClockMovesNobody(states[b - 1], events[b - 1], p);
      }
    }
  }

  /** When the lock was started, as far as a waiting process can tell from the time of the last write it found with
      its stat and the contents it read afterwards. */
  function StartedAt(mtime: int, note: Option<Note>): int {
    if note.Some? && note.value.startedAt != 0 then note.value.startedAt else mtime
  }

  lemma StatStep(s: State, p: nat, t: State)
    requires Proc(s, p).phase.StatLock? && s.lock.Some? && t == Step(s, Stat(p))
    ensures Proc(t, p) == Proc(s, p).(phase := ReadLock, look := Proc(t, p).look)
    ensures Proc(t, p).look.mtime == s.lock.value.mtime && Proc(t, p).look.since == Proc(s, p).look.since
  {
  }

  lemma ReadStep(s: State, p: nat, t: State)
    requires Proc(s, p).phase.ReadLock? && t == Step(s, Read(p))
    ensures Proc(t, p).phase.JudgeLock? && Proc(t, p).look.mtime == Proc(s, p).look.mtime
    ensures Proc(t, p).look.since == Proc(s, p).look.since && Proc(t, p).look.at == s.now
    ensures Proc(t, p).look.seen == if s.lock.Some? then s.lock.value.note else None
  {
  }

  lemma JudgeStep(s: State, p: nat, t: State)
    requires Proc(s, p).phase.JudgeLock? && t == Step(s, Judge(p))
    ensures var look := Proc(s, p).look;
            Proc(t, p).phase ==
            if look.at - StartedAt(look.mtime, look.seen) > 10 * 60 * 1000
               || (look.seen.Some? && Proc(s, look.seen.value.pid).phase.Crashed?) then UnlinkStale
            else if s.now - look.since >= 5 * 60 * 1000 then Failed
            else Sleep
  {
  }

  /** The call begins a wait: the first one, or a new one after another process was faster to create the lock. */
  ghost predicate BeginsWait(s: State, e: Event) {
    || (e.Begin? && Proc(s, e.p).phase.Idle?)
    || (e.Open? && Proc(s, e.p).phase.OpenLock? && s.lock.Some?)
  }

  lemma WaitStep(s: State, e: Event, t: State, p: nat)
    requires t == Step(s, e)
    ensures Proc(t, p).look.since == if e.p == p && BeginsWait(s, e) then s.now else Proc(s, p).look.since
  {
    if e.p != p {
      OthersStay(s, e, p);
    }
  }

  ghost predicate BeginsWaitAt(states: seq<State>, events: seq<Event>, n: nat, p: nat) {
    n < |states| && n < |events| && events[n].p == p && BeginsWait(states[n], events[n])
  }

  /** A process has been waiting since its last wait began. */
  lemma {:induction false} WaitingSince(states: seq<State>, events: seq<Event>, d: nat, k: nat, p: nat)
    requires IsRun(states, events) && d < k < |states| && BeginsWaitAt(states, events, d, p)
    requires forall n: nat :: d < n < k ==> !BeginsWaitAt(states, events, n, p)
    ensures Proc(states[k], p).look.since == states[d].now
    decreases k
  {
    assert states[k - 1 + 1] == Step(states[k - 1], events[k - 1]);
    WaitStep(states[k - 1], events[k - 1], states[k], p);
    if d < k - 1 {
      WaitingSince(states, events, d, k - 1, p);
      assert !BeginsWaitAt(states, events, k - 1, p);
    }
  }

  /** The verdict on a lock, from the calls that led to it: stat at `a`, read at `b`, judge at `c`. The lock is
      taken for stale exactly when it was older than ten minutes at the time of reading, or the process it names has
      gone by now; otherwise the process sleeps, or fails once it has waited five minutes. */
  lemma VerdictIff(states: seq<State>, events: seq<Event>, a: nat, b: nat, c: nat, p: nat)
    requires IsRun(states, events) && a < b < c < |events|
    requires events[a] == Stat(p) && Proc(states[a], p).phase.StatLock? && states[a].lock.Some?
    requires events[b] == Read(p) && events[c] == Judge(p) && Pauses(events, a, b, p) && Pauses(events, b, c, p)
    ensures var note := if states[b].lock.Some? then states[b].lock.value.note else None;
            var started := StartedAt(states[a].lock.value.mtime, note);
            Proc(states[c + 1], p).phase ==
            if states[b].now - started > 10 * 60 * 1000
               || (note.Some? && Proc(states[c], note.value.pid).phase.Crashed?) then UnlinkStale
            else if states[c].now - Proc(states[a], p).look.since >= 5 * 60 * 1000 then Failed
            else Sleep
  {
    StatStep(states[a], p, states[a + 1]);
    PausingChangesNothing(states, events, a, b, p);
    ReadStep(states[b], p, states[b + 1]);
    PausingChangesNothing(states, events, b, c, p);
    JudgeStep(states[c], p, states[c + 1]);
  }
}
