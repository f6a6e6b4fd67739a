/** What each RPC does to the datastores and the locks, field by field, and what follows for runs. */
module ServerEffects {
  import opened Options
  import opened EditConfig
  import opened YangPush
  import opened NetconfServer
  import opened ServerProofs
  import opened ServerRuns
  import opened ServerTheorems

  // ------------------------------------------------------------------- reading

  ghost function Contents(s: Server, store: Datastore): StoredConfig {
    if store == Running then s.stores.running
    else if store == Candidate then s.stores.candidate
    else s.stores.startup
  }

  ghost function Holder(s: Server, store: Datastore): Option<nat> {
    if store == Running then s.locks.running
    else if store == Candidate then s.locks.candidate
    else s.locks.startup
  }

  /** Nobody else holds the datastore. */
  ghost predicate FreeFor(s: Server, store: Datastore, sid: nat) {
    Holder(s, store) in {None, Some(sid)}
  }

  // -------------------------------------------------------------------- writes

  /** The write is let through: its session is open and nobody else holds what it writes; `running` cannot be
      deleted, and an edit must be acceptable and meant. A commit also needs the candidate. */
  ghost predicate Granted(s: Server, e: Event)
    requires IsWrite(e)
  {
    && e.sid in s.sessions
    && match e
       case Edit(sid, target, fragment, replace, testOnly, _) =>
         FreeFor(s, target, sid) && !testOnly && ApplyFragment(Contents(s, target), fragment, replace).Ok?
       case Copy(sid, target, _, _) => FreeFor(s, target, sid)
       case DeleteConfig(sid, target, _) => target != Running && FreeFor(s, target, sid)
       case Commit(sid, _) => FreeFor(s, Candidate, sid) && FreeFor(s, Running, sid)
       case Discard(sid, _) => FreeFor(s, Candidate, sid)
       case Reboot(_, _) => true
  }

  /** The datastore that a write goes to. */
  function Target(e: Event): Option<Datastore>
    requires IsWrite(e)
  {
    match e
    case Edit(_, target, _, _, _, _) => Some(target)
    case Copy(_, target, _, _) => Some(target)
    case DeleteConfig(_, target, _) => Some(target)
    case Commit(_, _) => Some(Running)
    case Discard(_, _) => Some(Candidate)
    case Reboot(_, _) => None
  }

  /** What the target of a write then holds. */
  ghost predicate Stores(s: Server, e: Event, now: Config)
    requires IsWrite(e)
  {
    match e
    case Edit(_, target, fragment, replace, _, _) => ApplyFragment(Contents(s, target), fragment, replace) == Ok(now)
    case Copy(_, _, source, _) => now == Contents(s, source)
    case DeleteConfig(_, _, _) => now == Config(System("", "", ""), [])
    case Commit(_, _) => now == Contents(s, Candidate)
    case Discard(_, _) => now == Contents(s, Running)
    case Reboot(_, _) => true
  }

  lemma ChangedKeepsRest(s: Server, stores: PerStore<StoredConfig>, audience: seq<nat>)
    ensures var t := Changed(s.(stores := stores), audience);
            t.stores == stores && t.locks == s.locks && t.revision == s.revision + 1 && t.now == s.now
  {
  }

  lemma PutContents(s: Server, d: Datastore, c: StoredConfig, other: Datastore)
    ensures Contents(s.(stores := s.stores.Put(d, c)), other) == if other == d then c else Contents(s, other)
    ensures s.stores.At(d) == Contents(s, d) && s.locks.At(d) == Holder(s, d)
  {
  }

  /** The write has its effect on the datastores and nothing else there. */
  ghost predicate Effect(s: Server, e: Event, t: Server, store: Datastore)
    requires IsWrite(e)
  {
    && t.locks == s.locks && t.revision == s.revision + 1
    && (if Target(e) == Some(store) then Stores(s, e, Contents(t, store)) else Contents(t, store) == Contents(s, store))
  }

  lemma EditEffect(s: Server, e: Event, store: Datastore)
    requires e.Edit?
    ensures var t := StepEdit(s, e.sid, e.target, e.fragment, e.replace, e.testOnly, e.audience);
            if Granted(s, e) then Effect(s, e, t, store) else t == s
  {
    var r := ApplyFragment(s.stores.At(e.target), e.fragment, e.replace);
    if Granted(s, e) {
      ApplyFragmentKeepsGood(s.stores.At(e.target), e.fragment, e.replace);
      PutContents(s, e.target, r.value, store);
      ChangedKeepsRest(s, s.stores.Put(e.target, r.value), e.audience);
    }
  }

  lemma CopyEffect(s: Server, e: Event, store: Datastore)
    requires e.Copy?
    ensures var t := StepCopy(s, e.sid, e.target, e.source, e.audience);
            if Granted(s, e) then Effect(s, e, t, store) else t == s
  {
    var c := s.stores.At(e.source);
    PutContents(s, e.target, c, store);
    ChangedKeepsRest(s, s.stores.Put(e.target, c), e.audience);
  }

  lemma DeleteEffect(s: Server, e: Event, store: Datastore)
    requires e.DeleteConfig?
    ensures var t := StepDeleteConfig(s, e.sid, e.target, e.audience);
            if Granted(s, e) then Effect(s, e, t, store) else t == s
  {
    PutContents(s, e.target, EmptyConfig(), store);
    ChangedKeepsRest(s, s.stores.Put(e.target, EmptyConfig()), e.audience);
  }

  lemma CommitEffect(s: Server, e: Event, store: Datastore)
    requires e.Commit?
    ensures var t := StepCommit(s, e.sid, e.audience);
            if Granted(s, e) then Effect(s, e, t, store) else t == s
  {
    PutContents(s, Running, s.stores.candidate, store);
    ChangedKeepsRest(s, s.stores.Put(Running, s.stores.candidate), e.audience);
  }

  lemma DiscardEffect(s: Server, e: Event, store: Datastore)
    requires e.Discard?
    ensures var t := StepDiscard(s, e.sid, e.audience);
            if Granted(s, e) then Effect(s, e, t, store) else t == s
  {
    PutContents(s, Candidate, s.stores.running, store);
    ChangedKeepsRest(s, s.stores.Put(Candidate, s.stores.running), e.audience);
  }

  lemma RebootEffect(s: Server, e: Event, store: Datastore)
    requires e.Reboot?
    ensures if Granted(s, e) then Effect(s, e, Step(s, e), store) else Step(s, e) == s
  {
    ChangedKeepsRest(s, s.stores, e.audience);
  }

  lemma WriteSteps(s: Server, e: Event)
    requires IsWrite(e) && !e.Reboot?
    ensures Step(s, e) ==
            if e.Edit? then StepEdit(s, e.sid, e.target, e.fragment, e.replace, e.testOnly, e.audience)
            else if e.Copy? then StepCopy(s, e.sid, e.target, e.source, e.audience)
            else if e.DeleteConfig? then StepDeleteConfig(s, e.sid, e.target, e.audience)
            else if e.Commit? then StepCommit(s, e.sid, e.audience)
            else StepDiscard(s, e.sid, e.audience)
  {
  }

  /** A write that is let through puts into its target what it asks for, leaves the other datastores and the locks
      alone and raises the revision by one; any other changes nothing at all. */
  lemma WriteEffect(s: Server, e: Event, store: Datastore)
    requires IsWrite(e)
    ensures if Granted(s, e) then Effect(s, e, Step(s, e), store) else Step(s, e) == s
  {
    if e.Reboot? {
      RebootEffect(s, e, store);
    } else {
      WriteSteps(s, e);
      if e.Edit? {
        EditEffect(s, e, store);
      } else if e.Copy? {
        CopyEffect(s, e, store);
      } else if e.DeleteConfig? {
        DeleteEffect(s, e, store);
      } else if e.Commit? {
        CommitEffect(s, e, store);
      } else {
        DiscardEffect(s, e, store);
      }
    }
  }

  // ------------------------------------------------------------- datastore runs

  /** The step writes to the datastore, or resets the whole device. */
  ghost predicate Touches(s: Server, e: Event, store: Datastore) {
    e.Reset? || (IsWrite(e) && Granted(s, e) && Target(e) == Some(store))
  }

  ghost predicate TouchedAt(states: seq<Server>, events: seq<Event>, n: nat, store: Datastore) {
    n < |events| && n < |states| && Touches(states[n], events[n], store)
  }

  ghost predicate UntouchedFrom(states: seq<Server>, events: seq<Event>, m: nat, k: nat, store: Datastore) {
    forall n: nat :: m <= n < k ==> !TouchedAt(states, events, n, store)
  }

  lemma UntouchedStep(s: Server, e: Event, store: Datastore)
    requires !Touches(s, e, store)
    ensures Contents(Step(s, e), store) == Contents(s, store)
  {
    if IsWrite(e) {
      WriteEffect(s, e, store);
    } else {
      OthersLeaveStores(s, e);
    }
  }

  lemma {:induction false} UntouchedStays(states: seq<Server>, events: seq<Event>, m: nat, k: nat, store: Datastore)
    requires IsRun(states, events) && m <= k < |states| && UntouchedFrom(states, events, m, k, store)
    ensures Contents(states[k], store) == Contents(states[m], store)
    decreases k
  {
    if m < k {
      UntouchedStays(states, events, m, k - 1, store);
      assert !TouchedAt(states, events, k - 1, store);
      assert states[k - 1 + 1] == Step(states[k - 1], events[k - 1]);
      UntouchedStep(states[k - 1], events[k - 1], store);
    }
  }

  /** In every run a datastore holds what the last write let through put there. */
  lemma LastWriteStays(states: seq<Server>, events: seq<Event>, i: nat, k: nat, store: Datastore)
    requires IsRun(states, events) && i < k < |states| && UntouchedFrom(states, events, i + 1, k, store)
    requires IsWrite(events[i]) && Granted(states[i], events[i]) && Target(events[i]) == Some(store)
    ensures Stores(states[i], events[i], Contents(states[k], store))
  {
    WriteEffect(states[i], events[i], store);
    assert states[i + 1] == Step(states[i], events[i]);
    UntouchedStays(states, events, i + 1, k, store);
  }

  /** What was last written to the candidate is what a commit lets everybody see in running. */
  lemma CommitPublishes(states: seq<Server>, events: seq<Event>, i: nat, j: nat, k: nat)
    requires IsRun(states, events) && i < j < k < |states|
    requires IsWrite(events[i]) && Granted(states[i], events[i]) && Target(events[i]) == Some(Candidate)
    requires UntouchedFrom(states, events, i + 1, j, Candidate)
    requires events[j].Commit? && Granted(states[j], events[j]) && UntouchedFrom(states, events, j + 1, k, Running)
    ensures Stores(states[i], events[i], Contents(states[k], Running))
  {
    LastWriteStays(states, events, i, j, Candidate);
    LastWriteStays(states, events, j, k, Running);
  }

  /** A reset puts the device back to what it was at the start, whoever holds what. */
  lemma ResetEffect(s: Server, audience: seq<nat>, store: Datastore)
    ensures var t, start := Step(s, Reset(audience)), InitialServer(0);
            Contents(t, store) == Contents(start, store) && Holder(t, store) == None && t.revision == start.revision
    ensures var c := Contents(InitialServer(0), store);
            c.system == System("netnexus-mock", "local-lab", "netnexus@example.test")
            && c.interfaces == [Interface("eth0", "Management interface", true, 1500),
                                Interface("loopback0", "Mock loopback interface", true, 1500)]
  {
  }

  // ---------------------------------------------------------------------- locks

  /** A lock is granted to an open session exactly when nobody else holds the datastore. */
  lemma LockEffect(s: Server, sid: nat, store: Datastore, other: Datastore)
    ensures var t := Step(s, Lock(sid, store));
            Holder(t, other) == if other == store && sid in s.sessions && FreeFor(s, store, sid) then Some(sid)
                                else Holder(s, other)
  {
  }

  lemma UnlockEffect(s: Server, sid: nat, store: Datastore, other: Datastore)
    ensures var t := Step(s, Unlock(sid, store));
            Holder(t, other) == if other == store && sid in s.sessions && FreeFor(s, store, sid) then None
                                else Holder(s, other)
  {
  }

  /** Closing a session frees what it holds and nothing else. */
  lemma CloseEffect(s: Server, sid: nat, store: Datastore)
    ensures var t := Step(s, Close(sid));
            && sid !in t.sessions
            && (forall a :: a != sid ==> (a in t.sessions <==> a in s.sessions)
                                         && (a in s.sessions ==> t.sessions[a] == s.sessions[a]))
            && Holder(t, store) == if sid in s.sessions && Holder(s, store) == Some(sid) then None else Holder(s, store)
  {
  }

  /** The event may end the hold of `sid` on the datastore. */
  predicate MayRelease(e: Event, sid: nat, store: Datastore) {
    e == Unlock(sid, store) || e == Close(sid) || e.Reset?
  }

  ghost predicate HeldFrom(events: seq<Event>, m: nat, k: nat, sid: nat, store: Datastore) {
    forall n :: m <= n < k && n < |events| ==> !MayRelease(events[n], sid, store)
  }

  lemma {:induction false} StaysHeld(states: seq<Server>, events: seq<Event>, m: nat, k: nat, sid: nat,
                                     store: Datastore)
    requires IsRun(states, events) && m <= k < |states| && HeldFrom(events, m, k, sid, store)
    requires Holder(states[m], store) == Some(sid)
    ensures Holder(states[k], store) == Some(sid)
    decreases k
  {
    if m < k {
      StaysHeld(states, events, m, k - 1, sid, store);
      assert states[k - 1 + 1] == Step(states[k - 1], events[k - 1]);
      StillHeld(states[k - 1], events[k - 1], sid, store);
    }
  }

  lemma StillHeld(s: Server, e: Event, sid: nat, store: Datastore)
    requires Holder(s, store) == Some(sid) && !MayRelease(e, sid, store)
    ensures Holder(Step(s, e), store) == Some(sid)
  {
    if s.locks.At(store) == Some(sid) && Step(s, e).locks.At(store) != Some(sid) {
      LockLeavesOnlyThroughHolder(s, e, store, sid);
    }
  }

  /** From the moment its lock is granted until it unlocks, is closed or the device is reset, a session holds the
      datastore, and no other session changes it. */
  lemma LockProtects(states: seq<Server>, events: seq<Event>, j: nat, k: nat, sid: nat, store: Datastore)
    requires IsRun(states, events) && j < k < |states| && events[j] == Lock(sid, store)
    requires sid in states[j].sessions && FreeFor(states[j], store, sid) && HeldFrom(events, j + 1, k, sid, store)
    ensures Holder(states[k], store) == Some(sid)
    ensures forall n: nat :: j < n < k && TouchedAt(states, events, n, store) ==> events[n].sid == sid
  {
    LockEffect(states[j], sid, store, store);
    assert states[j + 1] == Step(states[j], events[j]);
    StaysHeld(states, events, j + 1, k, sid, store);
    forall n: nat | j < n < k && TouchedAt(states, events, n, store) ensures events[n].sid == sid {
      StaysHeld(states, events, j + 1, n, sid, store);
      TouchedByHolder(states[n], events[n], sid, store);
    }
  }

  lemma TouchedByHolder(s: Server, e: Event, sid: nat, store: Datastore)
    requires Holder(s, store) == Some(sid) && !MayRelease(e, sid, store) && Touches(s, e, store)
    ensures e.sid == sid
  {
  }
}
