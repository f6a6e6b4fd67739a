/** The NETCONF server as a transition system: datastores, locks, sessions, subscriptions, write callbacks, timers
    and a clock. A rejected RPC is a step that changes nothing. */
module NetconfServer {
  import opened Options
  import opened SelectionDiff
  import opened EditConfig
  import opened YangPush

  /** Every stored configuration has distinct interface names and MTUs in range. */
  type StoredConfig = c: Config | GoodConfig(c) witness Config(System("", "", ""), [])

  datatype PerStore<T> = PerStore(running: T, candidate: T, startup: T) {
    function At(d: Datastore): T {
      match d
      case Running => running
      case Candidate => candidate
      case Startup => startup
    }

    function Put(d: Datastore, v: T): PerStore<T> {
      match d
      case Running => this.(running := v)
      case Candidate => this.(candidate := v)
      case Startup => this.(startup := v)
    }
  }

  /** A session has one RFC 5277 subscription (its stop time) or a set of dynamic ones. */
  datatype Session = Session(legacy: Option<Option<int>>, subs: map<nat, Subscription>)

  /** What runs once a reply has been written to a session's stream. */
  datatype Callback =
    | ActivateNew(id: nat)
    | ActivateModified(id: nat)
    | ResyncUpdate(id: nat)
    | Terminate(id: nat, owner: nat)

  datatype Server = Server(
    stores: PerStore<StoredConfig>, locks: PerStore<Option<nat>>, revision: nat,
    sessions: map<nat, Session>, queues: map<nat, seq<Callback>>,
    nextSession: nat, nextSub: nat, now: int, wire: seq<Message>)

  /** Steps. `audience` lists the event-stream subscriptions whose filter matches, in order of delivery. */
  datatype Event =
    | Open
    | Close(sid: nat)
    | Edit(sid: nat, target: Datastore, fragment: Fragment, replace: bool, testOnly: bool, audience: seq<nat>)
    | Copy(sid: nat, target: Datastore, source: Datastore, audience: seq<nat>)
    | DeleteConfig(sid: nat, target: Datastore, audience: seq<nat>)
    | Commit(sid: nat, audience: seq<nat>)
    | Discard(sid: nat, audience: seq<nat>)
    | Reboot(sid: nat, audience: seq<nat>)
    | Reset(audience: seq<nat>)
    | Announce(audience: seq<nat>)
    | Lock(sid: nat, target: Datastore)
    | Unlock(sid: nat, target: Datastore)
    | CreateLegacy(sid: nat, legacyStop: Option<int>)
    | CompleteLegacy(sid: nat)
    | EstablishSub(sid: nat, kind: Kind, stopTime: Option<int>)
    | ModifySub(sid: nat, id: nat, kind: Kind, stopTime: Option<int>)
    | DeleteSub(sid: nat, id: nat)
    | KillSub(sid: nat, id: nat)
    | Resync(sid: nat, id: nat)
    | WriteDone(sid: nat)
    | ConsoleTerminate(id: nat)
    | ChangeTimer(sid: nat, id: nat)
    | UpdateTimer(sid: nat, id: nat)
    | StopTimer(sid: nat, id: nat)
    | Clock(reading: int)

  // -------------------------------------------------------------- rendering

  function Leaf(name: string, text: string): Node {
    Node(name, text, [])
  }

  function Decimal(n: nat): string {
    if n < 10 then [('0' as int + n) as char] else Decimal(n / 10) + [('0' as int + n % 10) as char]
  }

  function InterfaceNode(i: Interface): Node {
    Node("interface", "", [Leaf("name", i.name), Leaf("description", i.description),
                           Leaf("enabled", if i.enabled then "true" else "false"),
                           Leaf("mtu", if i.mtu >= 0 then Decimal(i.mtu) else "-" + Decimal(-i.mtu))])
  }

  function Render(c: Config): seq<Node> {
    [Node("system", "", [Leaf("hostname", c.system.hostname), Leaf("location", c.system.location),
                         Leaf("contact", c.system.contact)]),
     Node("interfaces", "", seq(|c.interfaces|, i requires 0 <= i < |c.interfaces| => InterfaceNode(c.interfaces[i])))]
  }

  lemma InterfaceNodeWellFormed(i: Interface)
    ensures IdentityOf(InterfaceNode(i)) == Keyed("interface", i.name)
    ensures WellFormed(InterfaceNode(i).children)
  {
  }

  /** A rendered configuration has unique sibling identities exactly when interface names are distinct. */
  lemma RenderWellFormedIff(c: Config)
    ensures WellFormed(Render(c)) <==> DistinctNames(c.interfaces)
  {
    var nodes := Render(c)[1].children;
    forall i | 0 <= i < |c.interfaces|
      ensures IdentityOf(nodes[i]) == Keyed("interface", c.interfaces[i].name) && WellFormed(nodes[i].children)
    {
      InterfaceNodeWellFormed(c.interfaces[i]);
    }
    if DistinctNames(c.interfaces) {
      assert WellFormed(nodes);
      assert WellFormed(Render(c)[0].children);
    } else {
      var i, j :| 0 <= i < j < |c.interfaces| && c.interfaces[i].name == c.interfaces[j].name;
      assert IdentityOf(nodes[i]) == IdentityOf(nodes[j]);
      assert Render(c)[1] in Render(c);
    }
  }

  function Selected(s: Server, sub: Subscription): Selection {
    if sub.kind.Push? then
      var c := s.stores.At(sub.kind.store);
      RenderWellFormedIff(c);
      sub.kind.filter(Render(c))
    else []
  }

  // ----------------------------------------------------------------- state

  function InitialServer(now: int): Server {
    var c: StoredConfig := InitialConfig();
    Server(PerStore(c, c, c), PerStore(None, None, None), 1, map[], map[], 1001, 2_147_483_648, now, [])
  }

  predicate Live(s: Server, sid: nat, id: nat) {
    sid in s.sessions && id in s.sessions[sid].subs
  }

  function Sub(s: Server, sid: nat, id: nat): Subscription
    requires Live(s, sid, id)
  {
    s.sessions[sid].subs[id]
  }

  /** Puts the outcome of one subscription's step back, and its messages on the wire. */
  function Settle(s: Server, sid: nat, id: nat, o: Outcome): Server
    requires Live(s, sid, id)
  {
    var session := s.sessions[sid];
    var subs := if o.sub.Some? then session.subs[id := o.sub.value] else session.subs - {id};
    s.(sessions := s.sessions[sid := session.(subs := subs)], wire := s.wire + o.sent)
  }

  function Enqueue(s: Server, sid: nat, c: Callback): Server {
    s.(queues := s.queues[sid := (if sid in s.queues then s.queues[sid] else []) + [c]])
  }

  // ------------------------------------------------------------- broadcasts

  predicate Hears(s: Server, sid: nat, id: nat) {
    Live(s, sid, id) && Sub(s, sid, id).kind.EventStream? && !Expired(Sub(s, sid, id), s.now)
  }

  function EventRecords(s: Server, audience: seq<nat>): seq<Message> {
    if audience == [] then []
    else (if exists sid | sid in s.sessions :: Hears(s, sid, audience[0]) then [EventRecord(audience[0], s.now)]
          else [])
         + EventRecords(s, audience[1..])
  }

  /** Sends an event record to the audience and drops event-stream subscriptions past their stop time. */
  function Notify(s: Server, audience: seq<nat>): Server {
    s.(sessions := map sid | sid in s.sessions :: s.sessions[sid].(subs :=
                     map id | id in s.sessions[sid].subs && !(s.sessions[sid].subs[id].kind.EventStream?
                                                              && Expired(s.sessions[sid].subs[id], s.now))
                       :: s.sessions[sid].subs[id]),
       wire := s.wire + EventRecords(s, audience))
  }

  function Observed(s: Server, sub: Subscription): Option<Subscription> {
    Observe(sub, Selected(s, sub), s.now).sub
  }

  function ObserveAll(s: Server): Server {
    s.(sessions := map sid | sid in s.sessions :: s.sessions[sid].(subs :=
                     map id | id in s.sessions[sid].subs && Observed(s, s.sessions[sid].subs[id]).Some?
                       :: Observed(s, s.sessions[sid].subs[id]).value))
  }

  /** Event records go out first, then every on-change subscription looks at its selection. */
  function Broadcast(s: Server, audience: seq<nat>): Server {
    ObserveAll(Notify(s, audience))
  }

  function Revised(s: Server): Server {
    s.(revision := s.revision + 1)
  }

  function Changed(s: Server, audience: seq<nat>): Server {
    Broadcast(Revised(s), audience)
  }

  // ------------------------------------------------------------------ steps

  predicate Writable(s: Server, target: Datastore, sid: nat) {
    s.locks.At(target).None? || s.locks.At(target) == Some(sid)
  }

  function StepEdit(s: Server, sid: nat, target: Datastore, fragment: Fragment, replace: bool, testOnly: bool,
                    audience: seq<nat>): Server {
    if sid !in s.sessions || !Writable(s, target, sid) then s
    else
      match ApplyFragment(s.stores.At(target), fragment, replace)
      case Err(_) => s
      case Ok(next) =>
        if testOnly then s
        else
          ApplyFragmentKeepsGood(s.stores.At(target), fragment, replace);
          Changed(s.(stores := s.stores.Put(target, next)), audience)
  }

  function StepCopy(s: Server, sid: nat, target: Datastore, source: Datastore, audience: seq<nat>): Server {
    if sid !in s.sessions || !Writable(s, target, sid) then s
    else Changed(s.(stores := s.stores.Put(target, s.stores.At(source))), audience)
  }

  function StepDeleteConfig(s: Server, sid: nat, target: Datastore, audience: seq<nat>): Server {
    if sid !in s.sessions || target.Running? || !Writable(s, target, sid) then s
    else Changed(s.(stores := s.stores.Put(target, EmptyConfig())), audience)
  }

  function StepCommit(s: Server, sid: nat, audience: seq<nat>): Server {
    if sid !in s.sessions || !Writable(s, Candidate, sid) || !Writable(s, Running, sid) then s
    else Changed(s.(stores := s.stores.Put(Running, s.stores.candidate)), audience)
  }

  function StepDiscard(s: Server, sid: nat, audience: seq<nat>): Server {
    if sid !in s.sessions || !Writable(s, Candidate, sid) then s
    else Changed(s.(stores := s.stores.Put(Candidate, s.stores.running)), audience)
  }

  function StepReset(s: Server, audience: seq<nat>): Server {
    var initial: StoredConfig := InitialConfig();
    Broadcast(s.(stores := PerStore(initial, initial, initial), locks := PerStore(None, None, None), revision := 1),
              audience)
  }

  function StepOpen(s: Server): Server {
    s.(sessions := s.sessions[s.nextSession := Session(None, map[])],
       queues := s.queues[s.nextSession := []], nextSession := s.nextSession + 1)
  }

  function Release(holder: Option<nat>, sid: nat): Option<nat> {
    if holder == Some(sid) then None else holder
  }

  function StepClose(s: Server, sid: nat): Server {
    if sid !in s.sessions then s
    else
      s.(sessions := s.sessions - {sid},
         locks := PerStore(Release(s.locks.running, sid), Release(s.locks.candidate, sid),
                           Release(s.locks.startup, sid)))
  }

  function StepCreateLegacy(s: Server, sid: nat, stop: Option<int>): Server {
    if sid !in s.sessions || s.sessions[sid].subs != map[] || s.sessions[sid].legacy.Some? then s
    else s.(sessions := s.sessions[sid := s.sessions[sid].(legacy := Some(stop))])
  }

  function StepEstablish(s: Server, sid: nat, kind: Kind, stopTime: Option<int>): Server {
    if sid !in s.sessions || s.sessions[sid].legacy.Some?
       || (stopTime.Some? && stopTime.value <= s.now) then s
    else
      var session := s.sessions[sid];
      var sub := Establish(s.nextSub, kind, stopTime);
      Enqueue(s.(sessions := s.sessions[sid := session.(subs := session.subs[s.nextSub := sub])],
                 nextSub := s.nextSub + 1), sid, ActivateNew(s.nextSub))
  }

  /** A modification keeps the target; a new stop time must lie ahead. */
  predicate CanModify(s: Server, sid: nat, id: nat, kind: Kind, stopTime: Option<int>) {
    && Live(s, sid, id)
    && (kind.EventStream? <==> Sub(s, sid, id).kind.EventStream?)
    && (kind.Push? ==> kind.store == Sub(s, sid, id).kind.store)
    && (stopTime == Sub(s, sid, id).stopTime || (stopTime.Some? && stopTime.value > s.now))
  }

  function StepModify(s: Server, sid: nat, id: nat, kind: Kind, stopTime: Option<int>): Server {
    if !CanModify(s, sid, id, kind, stopTime) then s
    else Enqueue(Settle(s, sid, id, Outcome(Some(Modify(Sub(s, sid, id), kind, stopTime)), [])), sid,
                 ActivateModified(id))
  }

  function StepRemove(s: Server, sid: nat, id: nat): Server {
    if Live(s, sid, id) then Settle(s, sid, id, Outcome(None, [])) else s
  }

  /** The session that has the subscription. */
  ghost function Owner(s: Server, id: nat): (r: Option<nat>)
    ensures r.Some? ==> Live(s, r.value, id)
    ensures r.None? ==> forall sid :: !Live(s, sid, id)
  {
    if exists sid :: Live(s, sid, id) then var sid :| Live(s, sid, id); Some(sid) else None
  }

  ghost function StepTerminate(s: Server, id: nat): Server {
    if Owner(s, id).Some? then StepRemove(s, Owner(s, id).value, id) else s
  }

  ghost function StepKill(s: Server, sid: nat, id: nat): Server {
    if sid !in s.sessions || Owner(s, id).None? then s else Enqueue(s, sid, Terminate(id, Owner(s, id).value))
  }

  function StepResync(s: Server, sid: nat, id: nat): Server {
    if Live(s, sid, id) && IsOnChange(Sub(s, sid, id)) then Enqueue(s, sid, ResyncUpdate(id)) else s
  }

  /** The outcome of a callback for the live subscription `(sid, id)`. */
  function CallbackOutcome(s: Server, sub: Subscription, c: Callback): Outcome
  {
    match c
    case ActivateNew(_) => Deliver(sub, Selected(s, sub), s.now, true)
    case ActivateModified(_) => DeliverModified(sub, Selected(s, sub), s.now)
    case ResyncUpdate(_) => SendUpdate(sub, Selected(s, sub), s.now)
    case Terminate(_, _) => Outcome(None, [])
  }

  predicate HasCallback(s: Server, sid: nat) {
    sid in s.queues && s.queues[sid] != []
  }

  function CallbackOwner(sid: nat, c: Callback): nat {
    if c.Terminate? then c.owner else sid
  }

  function Popped(s: Server, sid: nat): Server
    requires HasCallback(s, sid)
  {
    s.(queues := s.queues[sid := s.queues[sid][1..]])
  }

  function StepWriteDone(s: Server, sid: nat): Server
  {
    if !HasCallback(s, sid) then s
    else
      var c := s.queues[sid][0];
      var owner := CallbackOwner(sid, c);
      if !Live(s, owner, c.id) then Popped(s, sid)
      else Settle(Popped(s, sid), owner, c.id, CallbackOutcome(s, Sub(s, owner, c.id), c))
  }

  function StepChangeTimer(s: Server, sid: nat, id: nat): Server {
    if !Live(s, sid, id) || Sub(s, sid, id).changeTimer.armed == 0 then s
    else Settle(s, sid, id, FireChange(Sub(s, sid, id), Selected(s, Sub(s, sid, id)), s.now))
  }

  function StepUpdateTimer(s: Server, sid: nat, id: nat): Server
  {
    if !Live(s, sid, id) || Sub(s, sid, id).updateTimer.armed == 0 then s
    else Settle(s, sid, id, FireUpdate(Sub(s, sid, id), Selected(s, Sub(s, sid, id)), s.now))
  }

  function StepStopTimer(s: Server, sid: nat, id: nat): Server {
    if !Live(s, sid, id) || Sub(s, sid, id).stopTimer.armed == 0 then s
    else Settle(s, sid, id, FireStop(Sub(s, sid, id), s.now))
  }

  ghost function Step(s: Server, e: Event): Server
  {
    match e
    case Open => StepOpen(s)
    case Close(sid) => StepClose(s, sid)
    case Edit(sid, target, fragment, replace, testOnly, audience) =>
      StepEdit(s, sid, target, fragment, replace, testOnly, audience)
    case Copy(sid, target, source, audience) => StepCopy(s, sid, target, source, audience)
    case DeleteConfig(sid, target, audience) => StepDeleteConfig(s, sid, target, audience)
    case Commit(sid, audience) => StepCommit(s, sid, audience)
    case Discard(sid, audience) => StepDiscard(s, sid, audience)
    case Reboot(sid, audience) => if sid in s.sessions then Changed(s, audience) else s
    case Reset(audience) => StepReset(s, audience)
    case Announce(audience) => Notify(s, audience)
    case Lock(sid, target) =>
      if sid in s.sessions && Writable(s, target, sid) then s.(locks := s.locks.Put(target, Some(sid))) else s
    case Unlock(sid, target) =>
      if sid in s.sessions && Writable(s, target, sid) then s.(locks := s.locks.Put(target, None)) else s
    case CreateLegacy(sid, stop) => StepCreateLegacy(s, sid, stop)
    case CompleteLegacy(sid) =>
      if sid in s.sessions then s.(sessions := s.sessions[sid := s.sessions[sid].(legacy := None)]) else s
    case EstablishSub(sid, kind, stopTime) => StepEstablish(s, sid, kind, stopTime)
    case ModifySub(sid, id, kind, stopTime) => StepModify(s, sid, id, kind, stopTime)
    case DeleteSub(sid, id) => StepRemove(s, sid, id)
    case KillSub(sid, id) => StepKill(s, sid, id)
    case Resync(sid, id) => StepResync(s, sid, id)
    case WriteDone(sid) => StepWriteDone(s, sid)
    case ConsoleTerminate(id) => StepTerminate(s, id)
    case ChangeTimer(sid, id) => StepChangeTimer(s, sid, id)
    case UpdateTimer(sid, id) => StepUpdateTimer(s, sid, id)
    case StopTimer(sid, id) => StepStopTimer(s, sid, id)
    case Clock(reading) => if reading >= s.now then s.(now := reading) else s
  }
}
