/** One dynamic subscription: its queue of edits, its timers and what it sends. Every function takes the clock
    reading and the filtered selection of that moment. */
module YangPush {
  import opened Options
  import opened SelectionDiff

  /** A rendered and filtered datastore: sibling identities are unique. */
  type Selection = s: seq<Node> | WellFormed(s) witness []

  /** Subtree and XPath filters, as arbitrary functions on selections. */
  type Filter = Selection -> Selection

  datatype Datastore = Running | Candidate | Startup

  /** A zero period is refused when the trigger is parsed. */
  type Period = p: int | p > 0 witness 1

  /** Update triggers; times are in milliseconds. */
  datatype Trigger = Periodic(period: Period, anchor: Option<int>) | OnChange(dampening: nat, syncOnStart: bool)

  datatype Kind = EventStream | Push(store: Datastore, filter: Filter, trigger: Trigger)

  /** A timer field of the subscription: whether it holds a live handle, and how many timers of this kind the
      event loop still has armed for this subscription. */
  datatype Timer = Timer(held: bool, armed: nat)

  datatype Subscription = Subscription(
    id: nat, kind: Kind, stopTime: Option<int>,
    stopTimer: Timer, updateTimer: Timer, changeTimer: Timer,
    pending: seq<Edit>, observed: Option<Selection>, last: Option<Selection>,
    lastUpdateAt: Option<int>, patchId: nat, nextUpdateAt: int)

  /** What goes to the client for subscription `id` at clock reading `at`. */
  datatype Message =
    | PushUpdate(id: nat, at: int, contents: Selection, onChange: bool)
    | PushChangeUpdate(id: nat, at: int, patch: nat, edits: seq<Edit>)
    | EventRecord(id: nat, at: int)

  /** The subscription afterwards, absent once it has ended, and what was sent. */
  datatype Outcome = Outcome(sub: Option<Subscription>, sent: seq<Message>)

  const PATCH_IDS := 4_294_967_296

  // ---------------------------------------------------------------- source

  function NoTimer(): Timer {
    Timer(false, 0)
  }

  function Arm(t: Timer): Timer {
    Timer(true, t.armed + 1)
  }

  function Clear(t: Timer): Timer {
    Timer(false, if t.held && t.armed > 0 then t.armed - 1 else t.armed)
  }

  /** The event loop runs a timer: it is no longer armed and its handle is spent. */
  function Fired(t: Timer): Timer {
    Timer(false, if t.armed > 0 then t.armed - 1 else 0)
  }

  function Establish(id: nat, kind: Kind, stopTime: Option<int>): Subscription {
    Subscription(id, kind, stopTime, NoTimer(), NoTimer(), NoTimer(), [], None, None, None, 0, 0)
  }

  predicate Expired(sub: Subscription, now: int) {
    sub.stopTime.Some? && now >= sub.stopTime.value
  }

  predicate IsOnChange(sub: Subscription) {
    sub.kind.Push? && sub.kind.trigger.OnChange?
  }

  predicate IsPeriodic(sub: Subscription) {
    sub.kind.Push? && sub.kind.trigger.Periodic?
  }

  function ClearTimers(sub: Subscription): Subscription {
    sub.(stopTimer := Clear(sub.stopTimer), updateTimer := Clear(sub.updateTimer),
         changeTimer := Clear(sub.changeTimer))
  }

  /** The selection against which the next edits are computed. */
  function Baseline(sub: Subscription, selection: Selection): Selection {
    if sub.observed.Some? then sub.observed.value
    else if sub.last.Some? then sub.last.value
    else selection
  }

  /** Queues the edits since the baseline and moves the baseline. */
  function Record(sub: Subscription, selection: Selection): Subscription {
    sub.(pending := sub.pending + Diff(Baseline(sub, selection), selection, []), observed := Some(selection))
  }

  function ScheduleOnChange(sub: Subscription, now: int): Outcome {
    if sub.changeTimer.held || sub.pending == [] then Outcome(Some(sub), [])
    else if Expired(sub, now) then Outcome(None, [])
    else Outcome(Some(sub.(changeTimer := Arm(sub.changeTimer))), [])
  }

  function SendUpdate(sub: Subscription, selection: Selection, now: int): Outcome {
    if !sub.kind.Push? then Outcome(Some(sub), [])
    else if Expired(sub, now) then Outcome(None, [])
    else
      Outcome(Some(sub.(changeTimer := Clear(sub.changeTimer), pending := [], observed := Some(selection),
                        last := Some(selection), lastUpdateAt := Some(now),
                        patchId := if IsOnChange(sub) then 0 else sub.patchId)),
              [PushUpdate(sub.id, now, selection, IsOnChange(sub))])
  }

  /** The queue, or when it is empty a diff against the last selection sent. */
  function PatchEdits(sub: Subscription, selection: Selection): seq<Edit> {
    if sub.pending != [] then sub.pending
    else Diff(if sub.last.Some? then sub.last.value else [], selection, [])
  }

  /** The queue, brought up to date, goes out if there is anything to say. */
  function Flush(sub: Subscription, selection: Selection, now: int): Outcome {
    var recorded := Record(sub, selection);
    var edits := PatchEdits(recorded, selection);
    if edits == [] then Outcome(Some(recorded), [])
    else
      Outcome(Some(recorded.(pending := [], last := Some(selection), lastUpdateAt := Some(now),
                             patchId := (sub.patchId + 1) % PATCH_IDS)),
              [PushChangeUpdate(sub.id, now, sub.patchId, edits)])
  }

  function SendChangeUpdate(sub: Subscription, selection: Selection, now: int): Outcome {
    if !IsOnChange(sub) then Outcome(Some(sub), [])
    else if Expired(sub, now) then Outcome(None, [])
    else Flush(sub.(changeTimer := Timer(false, sub.changeTimer.armed)), selection, now)
  }

  /** The dampening period since the last push has not yet passed. */
  predicate Dampened(sub: Subscription, now: int) {
    IsOnChange(sub) && sub.lastUpdateAt.Some? && now < sub.lastUpdateAt.value + sub.kind.trigger.dampening
  }

  function FireChange(sub: Subscription, selection: Selection, now: int): Outcome {
    var fired := sub.(changeTimer := Fired(sub.changeTimer));
    if Expired(fired, now) then Outcome(None, [])
    else if Dampened(fired, now) then ScheduleOnChange(fired, now)
    else SendChangeUpdate(fired, selection, now)
  }

  /** A datastore changed somewhere: on-change subscriptions look at their selection. */
  function Observe(sub: Subscription, selection: Selection, now: int): Outcome {
    if !IsOnChange(sub) then Outcome(Some(sub), [])
    else if Expired(sub, now) then Outcome(None, [])
    else
      var recorded := Record(sub, selection);
      if Diff(Baseline(sub, selection), selection, []) == [] then Outcome(Some(recorded), [])
      else ScheduleOnChange(recorded, now)
  }

  /** The first update time after `now` on the grid of the anchor, or one period after the base. */
  function FirstUpdateAt(trigger: Trigger, base: int, now: int): int
    requires trigger.Periodic?
  {
    if trigger.anchor.None? then base + trigger.period
    else if trigger.anchor.value > now then trigger.anchor.value
    else trigger.anchor.value + ((now - trigger.anchor.value) / trigger.period + 1) * trigger.period
  }

  function NextUpdateAt(next: int, period: Period, now: int): int
  {
    if next - now <= 0 then next + ((now - next) / period + 1) * period else next
  }

  /** One run of the periodic scheduler: send if due, then arm the next timer. */
  function Tick(sub: Subscription, selection: Selection, now: int): Outcome
  {
    if !IsPeriodic(sub) then Outcome(Some(sub), [])
    else if Expired(sub, now) then Outcome(None, [])
    else
      var sent := if sub.nextUpdateAt - now <= 0 then SendUpdate(sub, selection, now) else Outcome(Some(sub), []);
      var next := NextUpdateAt(sub.nextUpdateAt, sub.kind.trigger.period, now);
      Outcome(Some(sent.sub.value.(nextUpdateAt := next, updateTimer := Arm(sent.sub.value.updateTimer))), sent.sent)
  }

  function FireUpdate(sub: Subscription, selection: Selection, now: int): Outcome
  {
    Tick(sub.(updateTimer := Fired(sub.updateTimer)), selection, now)
  }

  function ScheduleStop(sub: Subscription, now: int): Outcome {
    if sub.stopTime.None? then Outcome(Some(sub), [])
    else if Expired(sub, now) then Outcome(None, [])
    else Outcome(Some(sub.(stopTimer := Arm(sub.stopTimer))), [])
  }

  function FireStop(sub: Subscription, now: int): Outcome {
    ScheduleStop(sub.(stopTimer := Fired(sub.stopTimer)), now)
  }

  /** Starts delivery once the reply has been written. */
  function Deliver(sub: Subscription, selection: Selection, now: int, initial: bool): Outcome
  {
    if Expired(sub, now) then Outcome(None, [])
    else
      var stopping := ScheduleStop(sub, now).sub.value;
      if !sub.kind.Push? then Outcome(Some(stopping), [])
      else if sub.kind.trigger.Periodic? then DeliverPeriodic(stopping, selection, now, initial)
      else if initial && sub.kind.trigger.syncOnStart then SendUpdate(stopping, selection, now)
      else
        var recorded := Record(stopping, selection);
        ScheduleOnChange(recorded.(last := Some(if sub.last.Some? then sub.last.value else selection)), now)
  }

  function DeliverPeriodic(sub: Subscription, selection: Selection, now: int, initial: bool): Outcome
    requires IsPeriodic(sub) && !Expired(sub, now)
  {
    var trigger := sub.kind.trigger;
    var emptied := sub.(pending := []);
    var sent := if initial && trigger.anchor.None? then SendUpdate(emptied, selection, now)
                else Outcome(Some(emptied), []);
    var base := if initial && sent.sub.value.lastUpdateAt.Some? then sent.sub.value.lastUpdateAt.value else now;
    var ticked := Tick(sent.sub.value.(nextUpdateAt := FirstUpdateAt(trigger, base, now)), selection, now);
    Outcome(ticked.sub, sent.sent + ticked.sent)
  }

  function Modify(sub: Subscription, kind: Kind, stopTime: Option<int>): Subscription {
    ClearTimers(sub).(kind := kind, stopTime := stopTime)
  }

  function DeliverModified(sub: Subscription, selection: Selection, now: int): Outcome
  {
    Deliver(ClearTimers(sub), selection, now, false)
  }
}
