/** A promise chain used as a mutex: each call chains its operation behind the previous one, and a rejected
    operation is caught before the next is chained. */
module LifecycleGate {
  import opened Options

  datatype Outcome = Fulfilled(value: int) | Rejected(error: int)

  /** One call: the queue promise it was chained on (`None` is the initial resolved one), whether its operation
      has been invoked, the settlement of the promise returned to the caller, and that of the promise left in the
      queue. */
  datatype Entry = Entry(after: Option<nat>, started: bool, result: Option<Outcome>, tail: Option<Outcome>)

  /** The promises made so far, the one in `queue`, and the order in which operations were invoked. */
  datatype Gate = Gate(entries: seq<Entry>, queue: Option<nat>, starts: seq<nat>)

  datatype Event =
    | Call(isFunction: bool)
    | RunThen(k: nat)
    | Settle(k: nat, outcome: Outcome)
    | RunCatch(k: nat)

  function EmptyGate(): Gate {
    Gate([], None, [])
  }

  // ------------------------------------------------------------------ steps

  /** The settlement of the promise an entry is chained on. */
  function Previous(g: Gate, e: Entry): Option<Outcome> {
    if e.after.None? then Some(Fulfilled(0))
    else if e.after.value < |g.entries| then g.entries[e.after.value].tail
    else None
  }

  /** A call chains a new promise behind the queue and puts its caught form in the queue. */
  function StepCall(g: Gate, isFunction: bool): Gate {
    if !isFunction then g
    else g.(entries := g.entries + [Entry(g.queue, false, None, None)], queue := Some(|g.entries|))
  }

  /** The reaction of `then`: invoke the operation, or pass a rejection on without invoking it. */
  function StepThen(g: Gate, k: nat): Gate {
    if k >= |g.entries| || g.entries[k].started || g.entries[k].result.Some? then g
    else
      match Previous(g, g.entries[k])
      case None => g
      case Some(Fulfilled(_)) => g.(entries := g.entries[k := g.entries[k].(started := true)], starts := g.starts + [k])
      case Some(Rejected(e)) => g.(entries := g.entries[k := g.entries[k].(result := Some(Rejected(e)))])
  }

  /** The operation's own promise settles, and with it the caller's. */
  function StepSettle(g: Gate, k: nat, outcome: Outcome): Gate {
    if k >= |g.entries| || !g.entries[k].started || g.entries[k].result.Some? then g
    else g.(entries := g.entries[k := g.entries[k].(result := Some(outcome))])
  }

  /** The reaction of `catch`: a rejection becomes a fulfilment. */
  function StepCatch(g: Gate, k: nat): Gate {
    if k >= |g.entries| || g.entries[k].result.None? || g.entries[k].tail.Some? then g
    else
      var caught := if g.entries[k].result.value.Rejected? then Fulfilled(0) else g.entries[k].result.value;
      g.(entries := g.entries[k := g.entries[k].(tail := Some(caught))])
  }

  function Step(g: Gate, e: Event): Gate {
    match e
    case Call(isFunction) => StepCall(g, isFunction)
    case RunThen(k) => StepThen(g, k)
    case Settle(k, outcome) => StepSettle(g, k, outcome)
    case RunCatch(k) => StepCatch(g, k)
  }

  // -------------------------------------------------------------- invariant

  /** Entries form one chain; an entry is invoked only after everything before it has settled, and the queue never
      rejects. */
  ghost predicate Inv(g: Gate) {
    && g.queue == (if g.entries == [] then None else Some(|g.entries| - 1))
    && (forall k :: 0 <= k < |g.entries| ==> g.entries[k].after == if k == 0 then None else Some(k - 1))
    && (forall k :: 0 <= k < |g.entries| ==> (g.entries[k].result.Some? ==> g.entries[k].started))
    && (forall k :: 0 <= k < |g.entries| ==>
          (g.entries[k].tail.Some? ==> g.entries[k].result.Some? && g.entries[k].tail.value.Fulfilled?))
    && (forall k :: 0 < k < |g.entries| ==> (g.entries[k].started ==> g.entries[k - 1].tail.Some?))
    && |g.starts| <= |g.entries|
    && (forall k :: 0 <= k < |g.entries| ==> (g.entries[k].started <==> k < |g.starts|))
    && (forall i :: 0 <= i < |g.starts| ==> g.starts[i] == i)
  }

  lemma StepKeepsInv(g: Gate, e: Event)
    requires Inv(g)
    ensures Inv(Step(g, e))
  {
    match e
    case RunThen(k) => ThenKeepsInv(g, k);
    case _ =>
  }

  lemma ThenKeepsInv(g: Gate, k: nat)
    requires Inv(g)
    ensures Inv(StepThen(g, k))
  {
    if k < |g.entries| && !g.entries[k].started && Previous(g, g.entries[k]).Some? {
      NextToStart(g, k);
    }
  }

  /** The only entry that can be invoked is the one after the last that was. */
  lemma NextToStart(g: Gate, k: nat)
    requires Inv(g) && k < |g.entries| && !g.entries[k].started && Previous(g, g.entries[k]).Some?
    ensures k == |g.starts| && Previous(g, g.entries[k]).value.Fulfilled?
  {
    if k > 0 {
      assert g.entries[k - 1].tail.Some?;
      assert g.entries[k - 1].started;
    }
  }

  // --------------------------------------------------------------------- runs

  ghost predicate IsRun(gates: seq<Gate>, events: seq<Event>) {
    && |gates| == |events| + 1 && gates[0] == EmptyGate()
    && forall i :: 0 <= i < |events| ==> gates[i + 1] == Step(gates[i], events[i])
  }

  lemma {:induction false} RunKeepsInv(gates: seq<Gate>, events: seq<Event>, n: nat)
    requires IsRun(gates, events) && n < |gates|
    ensures Inv(gates[n])
    decreases n
  {
    if n > 0 {
      RunKeepsInv(gates, events, n - 1);
      assert gates[n - 1 + 1] == Step(gates[n - 1], events[n - 1]);
      StepKeepsInv(gates[n - 1], events[n - 1]);
    }
  }

  ghost predicate Running(g: Gate, k: nat) {
    k < |g.entries| && g.entries[k].started && g.entries[k].result.None?
  }

  /** Operations start in submission order, and none starts before every earlier one has settled. */
  lemma FifoMutex(gates: seq<Gate>, events: seq<Event>, n: nat, j: nat, k: nat)
    requires IsRun(gates, events) && n < |gates| && j < k < |gates[n].entries| && gates[n].entries[k].started
    ensures gates[n].entries[j].started && gates[n].entries[j].result.Some?
    ensures forall i :: 0 <= i < |gates[n].starts| ==> gates[n].starts[i] == i
    ensures !Running(gates[n], j)
  {
    RunKeepsInv(gates, events, n);
    EarlierSettled(gates[n], j, k);
  }

  lemma {:induction false} EarlierSettled(g: Gate, j: nat, k: nat)
    requires Inv(g) && j < k < |g.entries| && g.entries[k].started
    ensures g.entries[j].started && g.entries[j].result.Some?
    decreases k
  {
    assert g.entries[k - 1].tail.Some? && g.entries[k - 1].result.Some?;
    if j < k - 1 {
      EarlierSettled(g, j, k - 1);
    }
  }

  /** A caller's promise settles with the outcome of its own operation, which was running, and with nothing else. */
  lemma OwnOutcome(g: Gate, e: Event, k: nat)
    requires Inv(g) && k < |g.entries|
    ensures k < |Step(g, e).entries|
    ensures Step(g, e).entries[k].result
            == if e.Settle? && e.k == k && Running(g, k) then Some(e.outcome) else g.entries[k].result
  {
    match e
    case RunThen(m) =>
      if m < |g.entries| && !g.entries[m].started && Previous(g, g.entries[m]).Some? {
        NextToStart(g, m);
      }
    case _ =>
  }

  /** Whatever its outcome, a settled operation lets the next one start: two reactions later it is running. */
  lemma SettledNeverBlocks(gates: seq<Gate>, events: seq<Event>, n: nat, k: nat)
    requires IsRun(gates, events) && n < |gates| && k + 1 < |gates[n].entries|
    requires gates[n].entries[k].result.Some? && !gates[n].entries[k + 1].started
    ensures Running(Step(Step(gates[n], RunCatch(k)), RunThen(k + 1)), k + 1)
  {
    RunKeepsInv(gates, events, n);
    var g := Step(gates[n], RunCatch(k));
    StepKeepsInv(gates[n], RunCatch(k));
    assert g.entries[k + 1] == gates[n].entries[k + 1];
    NextToStart(g, k + 1);
  }

  /** As long as some operation has not settled, one is running or a reaction makes progress. */
  lemma {:induction false} NoDeadlock(g: Gate, k: nat)
    requires Inv(g) && k < |g.entries| && g.entries[k].result.None?
    ensures exists j: nat :: j <= k && (Running(g, j) || Step(g, RunThen(j)) != g
                                        || (j < k && Step(g, RunCatch(j)) != g))
    decreases k
  {
    if !Running(g, k) {
      if k == 0 || g.entries[k - 1].tail.Some? {
        NextToStart(g, k);
        assert Step(g, RunThen(k)).starts != g.starts;
      } else if g.entries[k - 1].result.Some? {
        assert Step(g, RunCatch(k - 1)).entries[k - 1] != g.entries[k - 1];
      } else {
        NoDeadlock(g, k - 1);
      }
    }
  }

  // ------------------------------------------------------------------ source

  class TcpAoSettingsLifecycleGate {
    var entries: seq<Entry>
    var queue: Option<nat>
    ghost var starts: seq<nat>

    ghost function View(): Gate
      reads this
    {
      Gate(entries, queue, starts)
    }

    /** The chain is as every run keeps it, so its operations run one at a time and in order of submission. */
    ghost predicate Valid()
      reads this
    {
      Inv(View())
    }

    constructor ()
      ensures Valid() && View() == EmptyGate()
    {
      entries, queue, starts := [], None, [];
    }

    /** The caller's promise is chained behind all earlier ones, none of which is touched; its operation has not
        been invoked, and will not be before the one before it has settled. A non-function is refused and leaves
        the queue alone. */
    method RunExclusive(isFunction: bool) returns (promise: Option<nat>)
      requires Valid()
      modifies this
      ensures Valid() && View() == StepCall(old(View()), isFunction)
      ensures !isFunction ==> promise == None && unchanged(this)
      ensures isFunction ==>
                && promise == Some(|old(entries)|) && |entries| == |old(entries)| + 1 && old(entries) <= entries
                && !entries[promise.value].started && starts == old(starts)
                && (promise.value > 0 && entries[promise.value - 1].result.None? ==>
                    StepThen(View(), promise.value) == View())
    {
      if !isFunction {
        return None;
      }
      StepKeepsInv(View(), Call(true));
      var pending := |entries|;
      entries := entries + [Entry(queue, false, None, None)];
      queue := Some(pending);
      return Some(pending);
    }
  }
}
