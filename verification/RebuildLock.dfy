/** Concurrent rebuilds of the native module: any number of processes, a lock file, and the two runtime files that
    a rebuild overwrites. Every file-system call of the source is a step of its own. */
module RebuildLock {
  import opened Options

  datatype File = File(contents: seq<int>, mode: int)

  /** The native binding and its metadata file. */
  datatype Pair = Pair(binding: Option<File>, meta: Option<File>)

  const LOCK_MAX_AGE := 600_000
  const LOCK_WAIT_TIMEOUT := 300_000

  /** What is written into the lock file. */
  datatype Note = Note(pid: nat, startedAt: int, token: nat)

  /** The lock file: which process created it, when it was last written to, and its contents once there are any. */
  datatype LockFile = LockFile(creator: nat, mtime: int, note: Option<Note>)

  /** The call a process will make next. */
  datatype Phase =
    | Idle
    | CheckExists | StatLock | ReadLock | JudgeLock | UnlinkStale | Sleep
    | OpenLock | WriteLock
    | StatBinding | ReadBinding | StatMeta | ReadMeta
    | Build | Validate | Verify
    | RestoreBinding | ChmodBinding | RestoreMeta | ChmodMeta
    | ReleaseRead | ReleaseUnlink
    | Done | Failed | Crashed

  /** What a waiting process has found out about the lock: since when it waits, the time the stat returned, the
      contents and the time of reading. */
  datatype Look = Look(since: int, mtime: int, seen: Option<Note>, at: int)

  /** `mode` is what the last stat of a runtime file returned. */
  datatype Process = Process(phase: Phase, token: nat, mode: int, snapshot: Pair, look: Look)

  /** `initial` and `validated` are history: the first pair, and those left by rebuilds that passed validation. */
  datatype State = State(now: int, lock: Option<LockFile>, files: Pair, procs: map<nat, Process>,
                         initial: Pair, validated: set<Pair>)

  datatype Event =
    | Begin(p: nat)
    | Exists(p: nat)
    | Stat(p: nat)
    | Read(p: nat)
    | Judge(p: nat)
    | StaleUnlink(p: nat)
    | Wake(p: nat)
    | Open(p: nat, token: nat)
    | Write(p: nat, ok: bool)
    | Snapshot(p: nat, ok: bool)
    | BuildWrites(p: nat, files: Pair)
    | BuildEnds(p: nat, ok: bool)
    | ValidateOutput(p: nat)
    | VerifyRuntime(p: nat, ok: bool)
    | Restore(p: nat, ok: bool)
    | Release(p: nat)
    | Crash(p: nat)           // at any time; after the release it is the ordinary end
    | Clock(p: nat, reading: int)   // read by whichever process

  // ------------------------------------------------------------------ steps

  function Proc(s: State, p: nat): Process {
    if p in s.procs then s.procs[p] else Process(Idle, 0, 0, Pair(None, None), Look(0, 0, None, 0))
  }

  function Goto(s: State, p: nat, phase: Phase): State {
    s.(procs := s.procs[p := Proc(s, p).(phase := phase)])
  }

  function GotoLook(s: State, p: nat, phase: Phase, look: Look): State {
    s.(procs := s.procs[p := Proc(s, p).(phase := phase, look := look)])
  }

  /** The process exists: `kill` with signal 0 does not fail. */
  predicate Running(s: State, p: nat) {
    !Proc(s, p).phase.Crashed?
  }

  /** The age by the contents if they could be parsed, and otherwise by the time of the last write. */
  function Age(look: Look): int {
    var started := if look.seen.Some? && look.seen.value.startedAt != 0 then look.seen.value.startedAt else look.mtime;
    if look.at - started > 0 then look.at - started else 0
  }

  predicate OverAge(look: Look) {
    Age(look) > LOCK_MAX_AGE
  }

  /** A lock is stale when it is too old, or its process is known and does not run. */
  predicate Stale(s: State, look: Look) {
    OverAge(look) || (look.seen.Some? && !Running(s, look.seen.value.pid))
  }

  /** The wait loop: exists, stat, read, judge, and on a stale lock unlink. */
  function StepWait(s: State, e: Event): State {
    var at, look := Proc(s, e.p).phase, Proc(s, e.p).look;
    match e
    case Begin(p) => if at.Idle? then GotoLook(s, p, CheckExists, look.(since := s.now)) else s
    case Exists(p) => if at.CheckExists? then Goto(s, p, if s.lock.Some? then StatLock else OpenLock) else s
    case Stat(p) =>
      if !at.StatLock? then s
      else if s.lock.None? then Goto(s, p, CheckExists)
      else GotoLook(s, p, ReadLock, look.(mtime := s.lock.value.mtime))
    case Read(p) =>
      if !at.ReadLock? then s
      else GotoLook(s, p, JudgeLock, look.(seen := if s.lock.Some? then s.lock.value.note else None, at := s.now))
    case Judge(p) =>
      if !at.JudgeLock? then s
      else if Stale(s, look) then Goto(s, p, UnlinkStale)
      else Goto(s, p, if s.now - look.since >= LOCK_WAIT_TIMEOUT then Failed else Sleep)
    case StaleUnlink(p) => if at.UnlinkStale? then Goto(s.(lock := None), p, CheckExists) else s
    case Wake(p) => if at.Sleep? then Goto(s, p, CheckExists) else s
    case _ => s
  }

  /** Exclusive creation, then writing the token through the descriptor. */
  function StepAcquire(s: State, e: Event): State {
    var at := Proc(s, e.p).phase;
    match e
    case Open(p, token) =>
      if !at.OpenLock? then s
      else if s.lock.Some? then GotoLook(s, p, CheckExists, Proc(s, p).look.(since := s.now))
      else s.(lock := Some(LockFile(p, s.now, None)),
              procs := s.procs[p := Proc(s, p).(phase := WriteLock, token := token)])
    case Write(p, ok) =>
      if !at.WriteLock? then s
      else if !ok then Goto(s, p, Failed)
      else
        var written := if s.lock.Some? && s.lock.value.creator == p
            then Some(LockFile(p, s.now, Some(Note(p, s.now, Proc(s, p).token)))) else s.lock;
        Goto(s.(lock := written), p, StatBinding)
    case _ => s
  }

  /** Stat, then read, for each runtime file; a missing file is recorded as such, another error leaves the lock
      behind. */
  function StepSnapshot(s: State, p: nat, ok: bool): State {
    var me := Proc(s, p);
    if !(me.phase.StatBinding? || me.phase.ReadBinding? || me.phase.StatMeta? || me.phase.ReadMeta?) then s
    else if !ok then Goto(s, p, Failed)
    else if me.phase.StatBinding? then
      if s.files.binding.None?
      then s.(procs := s.procs[p := me.(phase := StatMeta, snapshot := me.snapshot.(binding := None))])
      else s.(procs := s.procs[p := me.(phase := ReadBinding, mode := s.files.binding.value.mode)])
    else if me.phase.ReadBinding? then
      s.(procs := s.procs[p := me.(phase := StatMeta,
                                   snapshot := me.snapshot.(binding := ReadWithMode(s.files.binding, me.mode)))])
    else if me.phase.StatMeta? then
      if s.files.meta.None? then s.(procs := s.procs[p := me.(phase := Build, snapshot := me.snapshot.(meta := None))])
      else s.(procs := s.procs[p := me.(phase := ReadMeta, mode := s.files.meta.value.mode)])
    else
      s.(procs := s.procs[p := me.(phase := Build,
                                   snapshot := me.snapshot.(meta := ReadWithMode(s.files.meta, me.mode)))])
  }

  function ReadWithMode(file: Option<File>, mode: int): Option<File> {
    if file.None? then None else Some(File(file.value.contents, mode))
  }

  function StepRebuild(s: State, e: Event): State {
    var me := Proc(s, e.p);
    match e
    case BuildWrites(p, files) => if me.phase.Build? then s.(files := files) else s
    case BuildEnds(p, ok) => if me.phase.Build? then Goto(s, p, if ok then Validate else RestoreBinding) else s
    case ValidateOutput(p) =>
      if me.phase.Validate? then Goto(s, p, if HasBinding(s.files) then Verify else RestoreBinding) else s
    case VerifyRuntime(p, ok) =>
      if !me.phase.Verify? then s
      else if ok then Goto(s.(validated := s.validated + {s.files}), p, ReleaseRead)
      else Goto(s, p, RestoreBinding)
    case _ => s
  }

  predicate HasBinding(files: Pair) {
    files.binding.Some? && files.binding.value.contents != []
  }

  /** `writeFileSync` sets the mode only when it creates the file; `chmodSync` follows. */
  function Rewritten(current: Option<File>, saved: File): Option<File> {
    Some(File(saved.contents, if current.Some? then current.value.mode else saved.mode))
  }

  function StepRestore(s: State, e: Event): State
    requires e.Restore?
  {
    var p, me := e.p, Proc(s, e.p);
    var saved := me.snapshot;
    if !Restoring(me.phase) then s
    else if !e.ok then Goto(s, p, ReleaseRead)
    else if me.phase.RestoreBinding? then
      if saved.binding.None? then Goto(s.(files := s.files.(binding := None)), p, RestoreMeta)
      else Goto(s.(files := s.files.(binding := Rewritten(s.files.binding, saved.binding.value))), p, ChmodBinding)
    else if me.phase.ChmodBinding? then
      if s.files.binding.None? || saved.binding.None? then Goto(s, p, ReleaseRead)
      else Goto(s.(files := s.files.(binding := Some(s.files.binding.value.(mode := saved.binding.value.mode)))), p,
                RestoreMeta)
    else if me.phase.RestoreMeta? then
      if saved.meta.None? then Goto(s.(files := s.files.(meta := None)), p, ReleaseRead)
      else Goto(s.(files := s.files.(meta := Rewritten(s.files.meta, saved.meta.value))), p, ChmodMeta)
    else
      if s.files.meta.None? || saved.meta.None? then Goto(s, p, ReleaseRead)
      else Goto(s.(files := s.files.(meta := Some(s.files.meta.value.(mode := saved.meta.value.mode)))), p, ReleaseRead)
  }

  predicate Restoring(phase: Phase) {
    phase.RestoreBinding? || phase.ChmodBinding? || phase.RestoreMeta? || phase.ChmodMeta?
  }

  predicate Carries(lock: Option<LockFile>, token: nat) {
    lock.Some? && lock.value.note.Some? && lock.value.note.value.token == token
  }

  /** Release reads the lock and unlinks it only if the token is its own. */
  function StepRelease(s: State, p: nat): State {
    var me := Proc(s, p);
    if me.phase.ReleaseRead? then
      Goto(s, p, if Carries(s.lock, me.token) then ReleaseUnlink else Done)
    else if me.phase.ReleaseUnlink? then Goto(s.(lock := None), p, Done)
    else s
  }

  function Step(s: State, e: Event): State {
    match e
    case Open(_, _) => StepAcquire(s, e)
    case Write(_, _) => StepAcquire(s, e)
    case Snapshot(p, ok) => StepSnapshot(s, p, ok)
    case BuildWrites(_, _) => StepRebuild(s, e)
    case BuildEnds(_, _) => StepRebuild(s, e)
    case ValidateOutput(_) => StepRebuild(s, e)
    case VerifyRuntime(_, _) => StepRebuild(s, e)
    case Restore(_, _) => StepRestore(s, e)
    case Release(p) => StepRelease(s, p)
    case Crash(p) => Goto(s, p, Crashed)
    case Clock(_, reading) => if reading >= s.now then s.(now := reading) else s
    case _ => StepWait(s, e)
  }

  // -------------------------------------------------------- mutual exclusion

  /** Between acquire and release. */
  predicate Inside(phase: Phase) {
    match phase
    case Idle | CheckExists | StatLock | ReadLock | JudgeLock | UnlinkStale | Sleep | OpenLock => false
    case Done | Failed | Crashed => false
    case _ => true
  }

  /** A process inside owns the lock file, with its token once written; so at most one is inside. */
  ghost predicate Exclusive(s: State) {
    forall p: nat :: Inside(Proc(s, p).phase) ==>
      s.lock.Some? && s.lock.value.creator == p && (Proc(s, p).phase.WriteLock? || Carries(s.lock, Proc(s, p).token))
  }

  /** The step removes, as stale, the lock of a process that is inside. */
  ghost predicate RobsOwner(s: State, e: Event) {
    e.StaleUnlink? && Proc(s, e.p).phase.UnlinkStale? && s.lock.Some? && Inside(Proc(s, s.lock.value.creator).phase)
  }

  /** A step of `p` leaves every other process as it is. */
  lemma OthersStay(s: State, e: Event, q: nat)
    requires q != e.p
    ensures Proc(Step(s, e), q) == Proc(s, q)
  {
  }

  /** What a step does to the lock file. */
  lemma LockSteps(s: State, e: Event)
    ensures Step(s, e).lock == s.lock
            || (e.Open? && s.lock.None? && Step(s, e).lock == Some(LockFile(e.p, s.now, None))
                && Proc(Step(s, e), e.p).phase.WriteLock?)
            || (e.Write? && Proc(s, e.p).phase.WriteLock? && s.lock.Some? && s.lock.value.creator == e.p
                && Step(s, e).lock == Some(LockFile(e.p, s.now, Some(Note(e.p, s.now, Proc(s, e.p).token)))))
            || (e.StaleUnlink? && Proc(s, e.p).phase.UnlinkStale? && Step(s, e).lock == None)
            || (e.Release? && Proc(s, e.p).phase.ReleaseUnlink? && Step(s, e).lock == None
                && Proc(Step(s, e), e.p).phase.Done?)
  {
  }

  /** A process is inside after its own step only if it was before, or it has just created the lock. */
  lemma EntrySteps(s: State, e: Event)
    requires Inside(Proc(Step(s, e), e.p).phase)
    ensures Inside(Proc(s, e.p).phase) || (e.Open? && s.lock.None? && Proc(Step(s, e), e.p).phase.WriteLock?
                                           && Step(s, e).lock == Some(LockFile(e.p, s.now, None)))
    ensures Inside(Proc(s, e.p).phase) ==>
              Proc(Step(s, e), e.p).token == Proc(s, e.p).token
              && (Proc(Step(s, e), e.p).phase.WriteLock? ==> Step(s, e).lock == s.lock && Step(s, e).procs == s.procs)
              && (Proc(s, e.p).phase.WriteLock? && !Proc(Step(s, e), e.p).phase.WriteLock? ==> e.Write?)
  {
  }

  lemma StepKeepsExclusive(s: State, e: Event)
    requires Exclusive(s) && !RobsOwner(s, e)
    ensures Exclusive(Step(s, e))
  {
    var t := Step(s, e);
    LockSteps(s, e);
    forall p: nat | Inside(Proc(t, p).phase)
      ensures t.lock.Some? && t.lock.value.creator == p
      ensures Proc(t, p).phase.WriteLock? || Carries(t.lock, Proc(t, p).token)
    {
      if p != e.p {
        OthersStay(s, e, p);
        assert Inside(Proc(s, p).phase);
        assert Inside(Proc(s, e.p).phase) ==> e.p == p;
      } else {
        EntrySteps(s, e);
      }
    }
  }

  /** A process leaves the inside without releasing the lock: it crashes, or fails to write the lock or to read the
      runtime files. */
  ghost predicate Abandons(s: State, e: Event) {
    var after := Proc(Step(s, e), e.p).phase;
    Inside(Proc(s, e.p).phase) && (after.Failed? || after.Crashed?)
  }

  /** A lock is judged stale by its age. */
  ghost predicate JudgesByAge(s: State, e: Event) {
    e.Judge? && Proc(s, e.p).phase.JudgeLock? && OverAge(Proc(s, e.p).look)
  }

  /** A process ends while another has read its lock and not yet judged it. */
  ghost predicate EndsWatched(s: State, e: Event) {
    e.Crash? && exists q: nat :: q != e.p && Watches(Proc(s, q), e.p)
  }

  predicate Watches(me: Process, pid: nat) {
    me.phase.JudgeLock? && me.look.seen.Some? && me.look.seen.value.pid == pid
  }

  ghost predicate Orderly(s: State, e: Event) {
    !Abandons(s, e) && !JudgesByAge(s, e) && !EndsWatched(s, e)
  }

  /** The lock has a creator inside, whose pid it carries; nobody has judged a lock stale, and every lock read but
      not yet judged belongs to a process that runs. */
  ghost predicate Calm(s: State) {
    && (s.lock.Some? ==> Inside(Proc(s, s.lock.value.creator).phase)
                         && (s.lock.value.note.Some? ==> s.lock.value.note.value.pid == s.lock.value.creator))
    && (forall p: nat :: !Proc(s, p).phase.UnlinkStale?)
    && (forall p: nat, pid: nat :: Watches(Proc(s, p), pid) ==> Running(s, pid))
  }

  /** Where the step of a process outside, or of one that ends, can lead. */
  lemma VerdictSteps(s: State, e: Event)
    ensures var me, you := Proc(s, e.p), Proc(Step(s, e), e.p);
            && (you.phase.UnlinkStale? ==>
                  me.phase.UnlinkStale? || (e.Judge? && me.phase.JudgeLock? && Stale(s, me.look)))
            && (you.phase.JudgeLock? ==>
                  you == me || (e.Read? && you.look.seen == if s.lock.Some? then s.lock.value.note else None))
            && (you.phase.Crashed? ==> me.phase.Crashed? || e.Crash?)
  {
  }

  lemma StepKeepsLockHeld(s: State, e: Event, t: State)
    requires Exclusive(s) && Calm(s) && Orderly(s, e) && t == Step(s, e) && t.lock.Some?
    ensures Inside(Proc(t, t.lock.value.creator).phase)
    ensures t.lock.value.note.Some? ==> t.lock.value.note.value.pid == t.lock.value.creator
  {
    LockSteps(s, e);
    var c := t.lock.value.creator;
    if t.lock == s.lock {
      if c != e.p {
        OthersStay(s, e, c);
      } else {
        LeavingSteps(s, e);
      }
    }
  }

  /** A process that is inside and does not abandon the lock stays inside, or has just unlinked it. */
  lemma LeavingSteps(s: State, e: Event)
    requires Exclusive(s) && Inside(Proc(s, e.p).phase) && !Abandons(s, e)
    ensures Inside(Proc(Step(s, e), e.p).phase) || Step(s, e).lock.None?
  {
  }

  lemma StepKeepsCalm(s: State, e: Event)
    requires Exclusive(s) && Calm(s) && Orderly(s, e)
    ensures Calm(Step(s, e))
  {
    var t := Step(s, e);
    VerdictSteps(s, e);
    if t.lock.Some? {
      StepKeepsLockHeld(s, e, t);
    }
    forall p: nat ensures !Proc(t, p).phase.UnlinkStale? {
      if p != e.p {
        OthersStay(s, e, p);
      } else {
        VerdictIsFair(s, e);
      }
    }
    forall p: nat, pid: nat | Watches(Proc(t, p), pid) ensures Running(t, pid) {
      StillRunning(s, e, t, p, pid);
    }
  }

  lemma VerdictIsFair(s: State, e: Event)
    requires Calm(s) && Orderly(s, e)
    ensures !(e.Judge? && Proc(s, e.p).phase.JudgeLock? && Stale(s, Proc(s, e.p).look))
  {
    var me := Proc(s, e.p);
    if e.Judge? && me.phase.JudgeLock? && me.look.seen.Some? {
      assert Watches(me, me.look.seen.value.pid);
    }
  }

  lemma StillRunning(s: State, e: Event, t: State, p: nat, pid: nat)
    requires Calm(s) && Orderly(s, e) && t == Step(s, e) && Watches(Proc(t, p), pid)
    ensures Running(t, pid)
  {
    VerdictSteps(s, e);
    if p != e.p {
      OthersStay(s, e, p);
    }
    assert Running(s, pid);
    if pid != e.p {
      OthersStay(s, e, pid);
    }
  }

  /** Removing the lock of a process inside lets the remover in beside it, three calls later. */
  lemma RobbingBreaksExclusion(s: State, p: nat, q: nat, token: nat)
    requires Exclusive(s) && RobsOwner(s, StaleUnlink(p)) && s.lock.value.creator == q
    ensures var t := Step(Step(Step(s, StaleUnlink(p)), Exists(p)), Open(p, token));
            p != q && Inside(Proc(t, p).phase) && Inside(Proc(t, q).phase)
  {
  }

  // -------------------------------------------------------- all or nothing

  /** The pair is the initial one or was left by a rebuild that passed validation and verification. */
  predicate Clean(s: State, files: Pair) {
    files == s.initial || files in s.validated
  }

  /** What the phase of a process says about the runtime files and its snapshot. */
  ghost predicate FilesOk(s: State, me: Process) {
    match me.phase
    case WriteLock | StatBinding | ReleaseRead | ReleaseUnlink => Clean(s, s.files)
    case ReadBinding => Clean(s, s.files) && s.files.binding.Some? && me.mode == s.files.binding.value.mode
    case StatMeta => Clean(s, s.files) && me.snapshot.binding == s.files.binding
    case ReadMeta => Clean(s, s.files) && me.snapshot.binding == s.files.binding
                     && s.files.meta.Some? && me.mode == s.files.meta.value.mode
    case Build | Validate | RestoreBinding => Clean(s, me.snapshot)
    case Verify => Clean(s, me.snapshot) && HasBinding(s.files)
    case ChmodBinding => Clean(s, me.snapshot) && me.snapshot.binding.Some? && s.files.binding.Some?
                         && s.files.binding.value.contents == me.snapshot.binding.value.contents
    case RestoreMeta => Clean(s, me.snapshot) && s.files.binding == me.snapshot.binding
    case ChmodMeta => Clean(s, me.snapshot) && s.files.binding == me.snapshot.binding
                      && me.snapshot.meta.Some? && s.files.meta.Some?
                      && s.files.meta.value.contents == me.snapshot.meta.value.contents
    case _ => true
  }

  ghost predicate NobodyInside(s: State) {
    forall p: nat :: !Inside(Proc(s, p).phase)
  }

  ghost predicate Inv(s: State) {
    && Exclusive(s)
    && (forall p: nat :: FilesOk(s, Proc(s, p)))
    && (NobodyInside(s) ==> Clean(s, s.files))
    && (forall v :: v in s.validated ==> HasBinding(v))
  }

  /** The steps the guarantee excludes: robbing a live owner, a crash inside, and a restore that fails. */
  ghost predicate Excluded(s: State, e: Event) {
    RobsOwner(s, e) || (e.Crash? && Inside(Proc(s, e.p).phase)) || (e.Restore? && !e.ok)
  }

  /** After a step of `p` its own file claims hold, and outside it leaves a clean pair if it was inside or nobody
      was. */
  ghost predicate OwnOk(s: State, t: State, p: nat) {
    && FilesOk(t, Proc(t, p))
    && (!Inside(Proc(t, p).phase) && (Inside(Proc(s, p).phase) || NobodyInside(s)) ==> Clean(t, t.files))
    && (forall v :: v in t.validated ==> HasBinding(v))
  }

  lemma AcquireOwn(s: State, e: Event)
    requires Inv(s) && (e.Open? || e.Write?)
    ensures OwnOk(s, StepAcquire(s, e), e.p)
  {
    assert FilesOk(s, Proc(s, e.p));
  }

  lemma SnapshotOwn(s: State, p: nat, ok: bool)
    requires Inv(s)
    ensures OwnOk(s, StepSnapshot(s, p, ok), p)
  {
    assert FilesOk(s, Proc(s, p));
  }

  lemma RebuildOwn(s: State, e: Event)
    requires Inv(s) && (e.BuildWrites? || e.BuildEnds? || e.ValidateOutput? || e.VerifyRuntime?)
    ensures OwnOk(s, StepRebuild(s, e), e.p)
  {
    assert FilesOk(s, Proc(s, e.p));
  }

  lemma RestoreOwn(s: State, e: Event)
    requires Inv(s) && e.Restore? && e.ok
    ensures OwnOk(s, StepRestore(s, e), e.p)
  {
    assert FilesOk(s, Proc(s, e.p));
    var phase := Proc(s, e.p).phase;
    if phase.RestoreBinding? || phase.ChmodBinding? {
      RestoreBindingOwn(s, e, StepRestore(s, e));
    } else if Restoring(phase) {
      RestoreMetaOwn(s, e, StepRestore(s, e));
    }
  }

  lemma RestoreBindingOwn(s: State, e: Event, t: State)
    requires Inv(s) && FilesOk(s, Proc(s, e.p)) && e.Restore? && e.ok && t == StepRestore(s, e)
    requires Proc(s, e.p).phase.RestoreBinding? || Proc(s, e.p).phase.ChmodBinding?
    ensures OwnOk(s, t, e.p)
  {
  }

  lemma RestoreMetaOwn(s: State, e: Event, t: State)
    requires Inv(s) && FilesOk(s, Proc(s, e.p)) && e.Restore? && e.ok && t == StepRestore(s, e)
    requires Proc(s, e.p).phase.RestoreMeta? || Proc(s, e.p).phase.ChmodMeta?
    ensures OwnOk(s, t, e.p)
  {
  }

  lemma ReleaseOwn(s: State, p: nat)
    requires Inv(s)
    ensures OwnOk(s, StepRelease(s, p), p)
  {
    assert FilesOk(s, Proc(s, p));
  }

  lemma OwnStep(s: State, e: Event)
    requires Inv(s) && !Excluded(s, e)
    ensures OwnOk(s, Step(s, e), e.p)
  {
    if e.Open? || e.Write? {
      AcquireOwn(s, e);
    } else if e.Snapshot? {
      SnapshotOwn(s, e.p, e.ok);
    } else if e.BuildWrites? || e.BuildEnds? || e.ValidateOutput? || e.VerifyRuntime? {
      RebuildOwn(s, e);
    } else if e.Restore? {
      RestoreOwn(s, e);
    } else if e.Release? {
      ReleaseOwn(s, e.p);
    } else {
      OutsideOwn(s, e);
    }
  }

  lemma OutsideOwn(s: State, e: Event)
    requires Inv(s) && !Excluded(s, e)
    requires e.Begin? || e.Exists? || e.Stat? || e.Read? || e.Judge? || e.StaleUnlink? || e.Wake? || e.Crash?
             || e.Clock?
    ensures OwnOk(s, Step(s, e), e.p)
  {
    assert FilesOk(s, Proc(s, e.p));
    WaitingMoves(s, e);
    MovedOutside(s, Step(s, e), e.p);
  }

  /** Waiting, crashing and reading the clock touch no file and never lead inside; only a crash can lead out. */
  lemma WaitingMoves(s: State, e: Event)
    requires e.Begin? || e.Exists? || e.Stat? || e.Read? || e.Judge? || e.StaleUnlink? || e.Wake? || e.Crash?
             || e.Clock?
    ensures var t := Step(s, e);
            && t.files == s.files && t.initial == s.initial && t.validated == s.validated
            && (Proc(t, e.p) == Proc(s, e.p) || !Inside(Proc(t, e.p).phase))
            && (Inside(Proc(s, e.p).phase) ==> Proc(t, e.p) == Proc(s, e.p) || e.Crash?)
  {
  }

  lemma MovedOutside(s: State, t: State, p: nat)
    requires Inv(s) && FilesOk(s, Proc(s, p))
    requires t.files == s.files && t.initial == s.initial && t.validated == s.validated
    requires Proc(t, p) == Proc(s, p) || (!Inside(Proc(t, p).phase) && !Inside(Proc(s, p).phase))
    ensures OwnOk(s, t, p)
  {
  }

  /** Only a process that is inside changes the runtime files or the history. */
  lemma OutsidersTouchNothing(s: State, e: Event)
    requires !Inside(Proc(s, e.p).phase)
    ensures Step(s, e).files == s.files && Step(s, e).validated == s.validated && Step(s, e).initial == s.initial
  {
  }

  lemma HistoryGrows(s: State, e: Event)
    ensures Step(s, e).initial == s.initial && s.validated <= Step(s, e).validated
  {
  }

  lemma StepKeepsInv(s: State, e: Event)
    requires Inv(s) && !Excluded(s, e)
    ensures Inv(Step(s, e))
  {
    var t := Step(s, e);
    StepKeepsExclusive(s, e);
    OwnStep(s, e);
    HistoryGrows(s, e);
    forall q: nat ensures FilesOk(t, Proc(t, q)) {
      if q != e.p {
        OthersStay(s, e, q);
        assert FilesOk(s, Proc(s, q));
        if Inside(Proc(s, q).phase) {
          assert !Inside(Proc(s, e.p).phase);
          OutsidersTouchNothing(s, e);
        }
      }
    }
    if NobodyInside(t) {
      OutsideAfter(s, e);
    }
  }

  lemma OutsideAfter(s: State, e: Event)
    requires Inv(s) && NobodyInside(Step(s, e)) && OwnOk(s, Step(s, e), e.p)
    ensures Clean(Step(s, e), Step(s, e).files)
  {
    assert !Inside(Proc(Step(s, e), e.p).phase);
    if !Inside(Proc(s, e.p).phase) {
      forall q: nat ensures !Inside(Proc(s, q).phase) {
        if q != e.p {
          OthersStay(s, e, q);
          assert !Inside(Proc(Step(s, e), q).phase);
        }
      }
    }
  }

  // ------------------------------------------------------------------- runs

  ghost predicate IsRun(states: seq<State>, events: seq<Event>) {
    && |states| == |events| + 1
    && states[0] == State(states[0].now, None, states[0].initial, map[], states[0].initial, {})
    && forall i :: 0 <= i < |events| ==> states[i + 1] == Step(states[i], events[i])
  }

  /** In every interleaving without robbed owners at most one process is between acquire and release, crashes
      included, and a release unlinks the lock only while it carries the releaser's own token. */
  lemma {:induction false} MutualExclusion(states: seq<State>, events: seq<Event>, k: nat)
    requires IsRun(states, events) && k < |states|
    requires forall i :: 0 <= i < k ==> !RobsOwner(states[i], events[i])
    ensures Exclusive(states[k])
    ensures forall p: nat, q: nat :: Inside(Proc(states[k], p).phase) && Inside(Proc(states[k], q).phase) ==> p == q
    ensures forall p: nat :: Proc(states[k], p).phase.ReleaseUnlink? ==>
              states[k].lock.Some? && states[k].lock.value.creator == p
              && Carries(states[k].lock, Proc(states[k], p).token)
    decreases k
  {
    if k > 0 {
      MutualExclusion(states, events, k - 1);
      assert states[k - 1 + 1] == Step(states[k - 1], events[k - 1]);
      StepKeepsExclusive(states[k - 1], events[k - 1]);
    }
  }

  /** As long as nobody leaves the lock behind, no lock is judged by its age, and no process ends between another's
      reading of its lock and its verdict, no owner is ever robbed, and so at most one process is inside. */
  lemma {:induction false} NobodyIsRobbed(states: seq<State>, events: seq<Event>, k: nat)
    requires IsRun(states, events) && k < |states|
    requires forall i :: 0 <= i < k ==> Orderly(states[i], events[i])
    ensures Exclusive(states[k]) && Calm(states[k])
    ensures forall i :: 0 <= i < k ==> !RobsOwner(states[i], events[i])
    ensures forall p: nat, q: nat :: Inside(Proc(states[k], p).phase) && Inside(Proc(states[k], q).phase) ==> p == q
    decreases k
  {
    if k > 0 {
      NobodyIsRobbed(states, events, k - 1);
      assert states[k - 1 + 1] == Step(states[k - 1], events[k - 1]);
      StepKeepsExclusive(states[k - 1], events[k - 1]);
      StepKeepsCalm(states[k - 1], events[k - 1]);
    }
  }

  lemma {:induction false} RunKeepsInv(states: seq<State>, events: seq<Event>, k: nat)
    requires IsRun(states, events) && k < |states|
    requires forall i :: 0 <= i < k ==> !Excluded(states[i], events[i])
    ensures Inv(states[k]) && states[k].initial == states[0].initial
    decreases k
  {
    if k > 0 {
      RunKeepsInv(states, events, k - 1);
      assert states[k - 1 + 1] == Step(states[k - 1], events[k - 1]);
      StepKeepsInv(states[k - 1], events[k - 1]);
      HistoryGrows(states[k - 1], events[k - 1]);
    }
  }
}
