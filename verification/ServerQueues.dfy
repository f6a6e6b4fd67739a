/** Write callbacks run in the order of their replies, so that what a request has put off is carried out. */
module ServerQueues {
  import opened YangPush
  import opened NetconfServer
  import opened ServerProofs
  import opened ServerRuns
  import opened ServerTheorems
  import opened ServerEnds

  // --------------------------------------------------------------- in order

  /** How many replies of a session have been written between two points of a run. */
  function Written(events: seq<Event>, j: nat, k: nat, sid: nat): nat
    requires j <= k <= |events|
    decreases k
  {
    if j == k then 0 else Written(events, j, k - 1, sid) + (if events[k - 1] == WriteDone(sid) then 1 else 0)
  }

  function QueueOf(s: Server, sid: nat): seq<Callback> {
    if sid in s.queues then s.queues[sid] else []
  }

  /** The first callback goes when a reply of the session has been written; others are added at the end. */
  ghost predicate Moves(q: seq<Callback>, written: bool, r: seq<Callback>) {
    if written && q != [] then r == q[1..] else q <= r
  }

  ghost predicate QueueMoves(s: Server, e: Event, t: Server, sid: nat) {
    Moves(QueueOf(s, sid), e == WriteDone(sid), QueueOf(t, sid))
  }

  lemma WritesLeaveQueues(s: Server, e: Event, sid: nat)
    requires IsWrite(e)
    ensures QueueMoves(s, e, Step(s, e), sid)
  {
    var stores := WriteShape(s, e);
    assert Changed(s.(stores := stores), e.audience).queues == s.queues;
  }

  lemma AnnouncementsLeaveQueues(s: Server, e: Event, sid: nat)
    requires e.Reset? || e.Announce?
    ensures QueueMoves(s, e, Step(s, e), sid)
  {
    assert Step(s, e).queues == s.queues;
  }

  lemma TimersLeaveQueues(s: Server, e: Event, sid: nat)
    requires IsScheduled(e)
    ensures QueueMoves(s, e, Step(s, e), sid)
  {
    assert Step(s, e).queues == s.queues;
  }

  lemma RequestsMoveQueues(s: Server, e: Event, sid: nat)
    requires IsSubscriptionRequest(e)
    ensures QueueMoves(s, e, Step(s, e), sid)
  {
  }

  lemma DeferredMoveQueues(s: Server, e: Event, sid: nat)
    requires IsDeferred(e)
    ensures QueueMoves(s, e, Step(s, e), sid)
  {
  }

  lemma OthersMoveQueues(s: Server, e: Event, sid: nat)
    requires e.Open? || e.Close? || e.Lock? || e.Unlock? || e.CreateLegacy? || e.CompleteLegacy?
    requires QueuesOk(s)
    ensures QueueMoves(s, e, Step(s, e), sid)
  {
  }

  lemma StepMovesQueue(s: Server, e: Event, sid: nat)
    requires QueuesOk(s)
    ensures QueueMoves(s, e, Step(s, e), sid)
  {
    if IsWrite(e) {
      WritesLeaveQueues(s, e, sid);
    } else if e.Reset? || e.Announce? {
      AnnouncementsLeaveQueues(s, e, sid);
    } else if IsScheduled(e) {
      TimersLeaveQueues(s, e, sid);
    } else if IsSubscriptionRequest(e) {
      RequestsMoveQueues(s, e, sid);
    } else if IsDeferred(e) {
      DeferredMoveQueues(s, e, sid);
    } else {
      OthersMoveQueues(s, e, sid);
    }
  }

  /** The queues of one session through a run, each leading to the next. */
  ghost predicate Line(queues: seq<seq<Callback>>, events: seq<Event>, sid: nat) {
    |queues| == |events| + 1
    && forall i: nat :: i < |events| ==> MovesAt(queues, events, sid, i)
  }

  ghost predicate MovesAt(queues: seq<seq<Callback>>, events: seq<Event>, sid: nat, i: nat) {
    i < |events| && i + 1 < |queues| && Moves(queues[i], events[i] == WriteDone(sid), queues[i + 1])
  }

  lemma {:induction false} LineMovesUp(queues: seq<seq<Callback>>, events: seq<Event>, j: nat, k: nat, sid: nat, n: nat)
    requires Line(queues, events, sid) && j <= k < |queues| && n < |queues[j]| && Written(events, j, k, sid) <= n
    ensures n - Written(events, j, k, sid) < |queues[k]|
    ensures queues[k][n - Written(events, j, k, sid)] == queues[j][n]
    decreases k
  {
    if j < k {
      LineMovesUp(queues, events, j, k - 1, sid, n);
      assert MovesAt(queues, events, sid, k - 1);
    }
  }

  ghost function QueuesOf(states: seq<Server>, sid: nat): seq<seq<Callback>> {
    seq(|states|, i requires 0 <= i < |states| => QueueOf(states[i], sid))
  }

  lemma RunMovesQueue(states: seq<Server>, events: seq<Event>, k: nat, sid: nat)
    requires IsRun(states, events) && k < |events|
    ensures QueueMoves(states[k], events[k], states[k + 1], sid)
  {
    RunKeepsInv(states, events, k);
    StepMovesQueue(states[k], events[k], sid);
  }

  lemma RunIsLine(states: seq<Server>, events: seq<Event>, sid: nat)
    requires IsRun(states, events)
    ensures Line(QueuesOf(states, sid), events, sid)
  {
    forall i: nat | i < |events| ensures MovesAt(QueuesOf(states, sid), events, sid, i) {
      RunMovesQueue(states, events, i, sid);
    }
  }

  /** In every run the callback at place `n` of a session's queue moves forward by one with each written reply. */
  lemma CallbacksInOrder(states: seq<Server>, events: seq<Event>, j: nat, k: nat, sid: nat, n: nat)
    requires IsRun(states, events) && j <= k < |states| && n < |QueueOf(states[j], sid)|
    requires Written(events, j, k, sid) <= n
    ensures n - Written(events, j, k, sid) < |QueueOf(states[k], sid)|
    ensures QueueOf(states[k], sid)[n - Written(events, j, k, sid)] == QueueOf(states[j], sid)[n]
  {
    RunIsLine(states, events, sid);
    LineMovesUp(QueuesOf(states, sid), events, j, k, sid, n);
  }

  /** The last callback of a queue comes up once all before it have run. */
  lemma ComesUp(states: seq<Server>, events: seq<Event>, m: nat, k: nat, sid: nat, q: seq<Callback>, c: Callback)
    requires IsRun(states, events) && m <= k < |states|
    requires QueueOf(states[m], sid) == q + [c] && Written(events, m, k, sid) == |q|
    ensures QueueOf(states[k], sid) != [] && QueueOf(states[k], sid)[0] == c
  {
    RunIsLine(states, events, sid);
    LineComesUp(QueuesOf(states, sid), events, m, k, sid, q, c);
  }

  lemma LineComesUp(queues: seq<seq<Callback>>, events: seq<Event>, m: nat, k: nat, sid: nat, q: seq<Callback>,
                    c: Callback)
    requires Line(queues, events, sid) && m <= k < |queues|
    requires queues[m] == q + [c] && Written(events, m, k, sid) == |q|
    ensures queues[k] != [] && queues[k][0] == c
  {
    LineMovesUp(queues, events, m, k, sid, |q|);
  }

  // -------------------------------------------------------------------- kills

  lemma KillEnqueues(s: Server, sid: nat, id: nat, owner: nat)
    requires Owned(s) && QueuesOk(s) && sid in s.sessions && Live(s, owner, id)
    ensures var t := Step(s, KillSub(sid, id));
            QueueOf(t, sid) == QueueOf(s, sid) + [Terminate(id, owner)]
  {
    assert Owner(s, id).Some? && Owner(s, id).value == owner;
  }

  lemma KillWaits(states: seq<Server>, events: seq<Event>, j: nat, sid: nat, owner: nat, id: nat)
    requires IsRun(states, events) && j < |events| && events[j] == KillSub(sid, id)
    requires sid in states[j].sessions && Live(states[j], owner, id)
    ensures QueueOf(states[j + 1], sid) == QueueOf(states[j], sid) + [Terminate(id, owner)]
  {
    RunKeepsInv(states, events, j);
    KillEnqueues(states[j], sid, id, owner);
  }

  /** A kill takes effect: once the killer's replies up to that of the kill itself have been written, nothing is sent
      for the subscription any more, whoever owns it. */
  lemma KillIsFinal(states: seq<Server>, events: seq<Event>, j: nat, k: nat, l: nat, sid: nat, owner: nat, m: Message)
    requires IsRun(states, events) && j < k < l < |events|
    requires events[j] == KillSub(sid, m.id) && sid in states[j].sessions && Live(states[j], owner, m.id)
    requires events[k] == WriteDone(sid) && Written(events, j + 1, k, sid) == |QueueOf(states[j], sid)|
    ensures !SentAt(states, events, l, m)
  {
    KillWaits(states, events, j, sid, owner, m.id);
    ComesUp(states, events, j + 1, k, sid, QueueOf(states[j], sid), Terminate(m.id, owner));
    if Live(states[k], owner, m.id) {
      KilledNow(states[k], sid, owner, m.id);
      EndIsFinal(states, events, k, l, owner, m);
    } else {
      GoneFor(states, events, j, k, owner, m.id);
      EndedIsSilent(states, events, k, l, m);
    }
  }

  lemma KilledNow(s: Server, sid: nat, owner: nat, id: nat)
    requires Live(s, owner, id) && QueueOf(s, sid) != [] && QueueOf(s, sid)[0] == Terminate(id, owner)
    ensures EndsBy(s, WriteDone(sid), owner, id, Sub(s, owner, id))
  {
  }

  lemma GoneAfter(states: seq<Server>, events: seq<Event>, k: nat, sid: nat, id: nat)
    requires IsRun(states, events) && k < |events| && Live(states[k], sid, id) && !Live(states[k + 1], sid, id)
    ensures Ended(states[k + 1], id)
  {
    RunKeepsInv(states, events, k);
    GoneEverywhere(states[k], events[k], sid, id);
  }

  /** A subscription that was live and no longer is has ended everywhere. */
  lemma {:induction false} GoneFor(states: seq<Server>, events: seq<Event>, j: nat, k: nat, sid: nat, id: nat)
    requires IsRun(states, events) && j <= k < |states| && Live(states[j], sid, id) && !Live(states[k], sid, id)
    ensures Ended(states[k], id)
    decreases k
  {
    if Live(states[k - 1], sid, id) {
      GoneAfter(states, events, k - 1, sid, id);
    } else {
      GoneFor(states, events, j, k - 1, sid, id);
      EndedStaysEnded(states, events, k - 1, k, id);
    }
  }
}
