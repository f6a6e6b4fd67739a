/** The datastores as the server holds them: three references to configuration objects that each mutating RPC
    replaces by a fresh one, so that no two datastores ever share an object. */
module DeviceState {
  import opened Options
  import opened EditConfig
  import opened YangPush
  import opened NetconfServer

  class ConfigCell {
    var config: StoredConfig

    constructor (config: StoredConfig)
      ensures this.config == config
    {
      this.config := config;
    }

    /** A deep copy. */
    method Clone() returns (copy: ConfigCell)
      ensures fresh(copy) && copy.config == config
    {
      copy := new ConfigCell(config);
    }
  }

  class MockState {
    var running: ConfigCell
    var candidate: ConfigCell
    var startup: ConfigCell
    var locks: PerStore<Option<nat>>
    var revision: nat

    function Cell(d: Datastore): ConfigCell
      reads this
    {
      match d
      case Running => running
      case Candidate => candidate
      case Startup => startup
    }

    ghost predicate Unaliased()
      reads this
    {
      running != candidate && running != startup && candidate != startup
    }

    function Contents(): PerStore<StoredConfig>
      reads this, running, candidate, startup
    {
      PerStore(running.config, candidate.config, startup.config)
    }

    constructor ()
      ensures Unaliased() && fresh(running) && fresh(candidate) && fresh(startup)
      ensures Contents() == InitialServer(0).stores && locks == InitialServer(0).locks && revision == 1
    {
      running := new ConfigCell(InitialConfig());
      candidate := new ConfigCell(InitialConfig());
      startup := new ConfigCell(InitialConfig());
      locks := PerStore(None, None, None);
      revision := 1;
    }

    predicate MayWrite(d: Datastore, sid: nat)
      reads this
    {
      locks.At(d).None? || locks.At(d) == Some(sid)
    }

    /** Stores a fresh object and counts the change. */
    method Store(d: Datastore, cell: ConfigCell)
      requires Unaliased() && cell != running && cell != candidate && cell != startup
      modifies this
      ensures Unaliased() && Contents() == old(Contents()).Put(d, cell.config)
      ensures locks == old(locks) && revision == old(revision) + 1
    {
      match d {
        case Running => running := cell;
        case Candidate => candidate := cell;
        case Startup => startup := cell;
      }
      revision := revision + 1;
    }

    method EditConfig(sid: nat, target: Datastore, fragment: Fragment, replace: bool, testOnly: bool) returns (ok: bool)
      requires Unaliased()
      modifies this
      ensures Unaliased() && locks == old(locks)
      ensures ok == (old(MayWrite(target, sid)) && ApplyFragment(old(Contents()).At(target), fragment, replace).Ok?)
      ensures if ok && !testOnly
              then Ok(Contents().At(target)) == ApplyFragment(old(Contents()).At(target), fragment, replace)
                   && (forall d: Datastore :: d != target ==> Contents().At(d) == old(Contents()).At(d))
                   && revision == old(revision) + 1
              else unchanged(this) && Contents() == old(Contents())
    {
      if !MayWrite(target, sid) {
        return false;
      }
      var next := ApplyConfigFragment(Cell(target).config, fragment, replace);
      if next.Err? {
        return false;
      }
      if !testOnly {
        ApplyFragmentKeepsGood(Cell(target).config, fragment, replace);
        var cell := new ConfigCell(next.value);
        Store(target, cell);
      }
      return true;
    }

    method CopyConfig(sid: nat, target: Datastore, source: Datastore) returns (ok: bool)
      requires Unaliased()
      modifies this
      ensures Unaliased() && locks == old(locks) && ok == old(MayWrite(target, sid))
      ensures if ok then Contents() == old(Contents()).Put(target, old(Contents()).At(source))
              && revision == old(revision) + 1
              else unchanged(this) && Contents() == old(Contents())
    {
      if !MayWrite(target, sid) {
        return false;
      }
      var cell := Cell(source).Clone();
      Store(target, cell);
      return true;
    }

    method DeleteConfig(sid: nat, target: Datastore) returns (ok: bool)
      requires Unaliased()
      modifies this
      ensures Unaliased() && locks == old(locks) && ok == (!target.Running? && old(MayWrite(target, sid)))
      ensures if ok then Contents() == old(Contents()).Put(target, EmptyConfig()) && revision == old(revision) + 1
              else unchanged(this) && Contents() == old(Contents())
    {
      if target.Running? || !MayWrite(target, sid) {
        return false;
      }
      var cell := new ConfigCell(EmptyConfig());
      Store(target, cell);
      return true;
    }

    method Commit(sid: nat) returns (ok: bool)
      requires Unaliased()
      modifies this
      ensures Unaliased() && locks == old(locks) && ok == old(MayWrite(Candidate, sid) && MayWrite(Running, sid))
      ensures if ok then Contents() == old(Contents()).Put(Running, old(Contents()).candidate)
              && revision == old(revision) + 1
              else unchanged(this) && Contents() == old(Contents())
    {
      if !MayWrite(Candidate, sid) || !MayWrite(Running, sid) {
        return false;
      }
      var cell := candidate.Clone();
      Store(Running, cell);
      return true;
    }

    method DiscardChanges(sid: nat) returns (ok: bool)
      requires Unaliased()
      modifies this
      ensures Unaliased() && locks == old(locks) && ok == old(MayWrite(Candidate, sid))
      ensures if ok then Contents() == old(Contents()).Put(Candidate, old(Contents()).running)
              && revision == old(revision) + 1
              else unchanged(this) && Contents() == old(Contents())
    {
      if !MayWrite(Candidate, sid) {
        return false;
      }
      var cell := running.Clone();
      Store(Candidate, cell);
      return true;
    }

    method LockDatastore(sid: nat, target: Datastore) returns (ok: bool)
      modifies this`locks
      ensures ok == old(MayWrite(target, sid))
      ensures locks == if ok then old(locks).Put(target, Some(sid)) else old(locks)
    {
      ok := MayWrite(target, sid);
      if ok {
        locks := locks.Put(target, Some(sid));
      }
    }

    method UnlockDatastore(sid: nat, target: Datastore) returns (ok: bool)
      modifies this`locks
      ensures ok == old(MayWrite(target, sid))
      ensures locks == if ok then old(locks).Put(target, None) else old(locks)
    {
      ok := MayWrite(target, sid);
      if ok {
        locks := locks.Put(target, None);
      }
    }

    method CloseSession(sid: nat)
      modifies this`locks
      ensures forall d: Datastore :: locks.At(d) == if old(locks).At(d) == Some(sid) then None else old(locks).At(d)
    {
      locks := PerStore(Release(locks.running, sid), Release(locks.candidate, sid), Release(locks.startup, sid));
    }
  }
}
