/** Periodic push updates stay on their grid whatever the clock readings. */
module PeriodicGrid {
  import opened Options
  import opened YangPush

  function GridPoint(base: int, period: Period, k: int): int {
    base + k * period
  }

  ghost predicate OnGrid(t: int, base: int, period: Period) {
    exists k :: t == GridPoint(base, period, k)
  }

  /** The grid interval a moment falls into. */
  function Cell(now: int, base: int, period: Period): int {
    (now - base) / period
  }

  lemma OnGridTransitive(a: int, b: int, base: int, period: Period)
    requires OnGrid(a, b, period) && OnGrid(b, base, period)
    ensures OnGrid(a, base, period)
  {
    var k :| a == GridPoint(b, period, k);
    var j :| b == GridPoint(base, period, j);
    assert (j + k) * period == j * period + k * period;
    assert a == GridPoint(base, period, j + k);
  }

  lemma DivisionBounds(d: int, p: Period)
    ensures d / p * p <= d < (d / p + 1) * p
    ensures (d / p + 1) * p == d / p * p + p
  {
  }

  lemma DivisionMonotone(a: int, b: int, p: Period, k: int)
    requires a < k * p <= b
    ensures a / p < k <= b / p
  {
    DivisionBounds(a, p);
    DivisionBounds(b, p);
    TimesMonotone(k, a / p, p);
    TimesMonotone(b / p + 1, k, p);
  }

  lemma TimesMonotone(x: int, y: int, p: Period)
    ensures x <= y ==> x * p <= y * p
  {
  }

  /** A due tick moves the next update to the first grid point after `now`. */
  lemma NextUpdateInWindow(next: int, period: Period, now: int)
    ensures OnGrid(NextUpdateAt(next, period, now), next, period)
    ensures NextUpdateAt(next, period, now) > now
    ensures next <= now ==> NextUpdateAt(next, period, now) - period <= now
    ensures next > now ==> NextUpdateAt(next, period, now) == next
  {
    if next <= now {
      DivisionBounds(now - next, period);
      assert NextUpdateAt(next, period, now) == GridPoint(next, period, (now - next) / period + 1);
    } else {
      assert next == GridPoint(next, period, 0);
    }
  }

  /** The first update lies on the grid of the anchor or base: one period after the base, at an anchor still ahead, or
      at the first grid point after `now` of an anchor that has passed. */
  lemma FirstUpdateOnGrid(trigger: Trigger, base: int, now: int)
    requires trigger.Periodic?
    ensures trigger.anchor.Some? ==> OnGrid(FirstUpdateAt(trigger, base, now), trigger.anchor.value, trigger.period)
    ensures trigger.anchor.None? ==> OnGrid(FirstUpdateAt(trigger, base, now), base, trigger.period)
    ensures trigger.anchor.None? ==> FirstUpdateAt(trigger, base, now) - trigger.period == base
    ensures trigger.anchor.Some? ==> FirstUpdateAt(trigger, base, now) > now
    ensures trigger.anchor.Some? && trigger.anchor.value > now ==>
              FirstUpdateAt(trigger, base, now) == trigger.anchor.value
    ensures trigger.anchor.Some? && trigger.anchor.value <= now ==>
              FirstUpdateAt(trigger, base, now) - trigger.period <= now
  {
    var p := trigger.period;
    if trigger.anchor.None? {
      assert FirstUpdateAt(trigger, base, now) == GridPoint(base, p, 1);
    } else {
      var a := trigger.anchor.value;
      if a > now {
        assert a == GridPoint(a, p, 0);
      } else {
        DivisionBounds(now - a, p);
        assert FirstUpdateAt(trigger, base, now) == GridPoint(a, p, (now - a) / p + 1);
      }
    }
  }

  /** A moment before a grid point and one at or after it fall into different cells. */
  lemma CellsSeparated(earlier: int, later: int, next: int, base: int, period: Period)
    requires OnGrid(next, base, period) && earlier < next <= later
    ensures Cell(earlier, base, period) < Cell(later, base, period)
  {
    var k :| next == GridPoint(base, period, k);
    DivisionMonotone(earlier - base, later - base, period, k);
  }

  // ----------------------------------------------------- a series of ticks

  /** The timer fires again and again, with any selections and any clock readings. */
  function FireAll(sub: Subscription, inputs: seq<(Selection, int)>): Outcome
    decreases |inputs|
  {
    if inputs == [] then Outcome(Some(sub), [])
    else
      var (selection, now) := inputs[0];
      var o := FireUpdate(sub, selection, now);
      if o.sub.None? then o
      else
        var rest := FireAll(o.sub.value, inputs[1..]);
        Outcome(rest.sub, o.sent + rest.sent)
  }

  /** One tick sends exactly when the update is due, at most once, and stays on the grid. */
  lemma TickOnGrid(sub: Subscription, selection: Selection, now: int)
    requires IsPeriodic(sub) && !Expired(sub, now)
    ensures var o := FireUpdate(sub, selection, now);
            && o.sub.Some? && o.sub.value.kind == sub.kind && o.sub.value.stopTime == sub.stopTime
            && OnGrid(o.sub.value.nextUpdateAt, sub.nextUpdateAt, sub.kind.trigger.period)
            && o.sub.value.nextUpdateAt > now
            && |o.sent| == (if sub.nextUpdateAt <= now then 1 else 0)
            && (sub.nextUpdateAt <= now ==> o.sub.value.nextUpdateAt - sub.kind.trigger.period <= now)
            && (forall m :: m in o.sent ==> m.at == now)
            && (sub.nextUpdateAt > now ==> o.sub.value.nextUpdateAt == sub.nextUpdateAt)
  {
    NextUpdateInWindow(sub.nextUpdateAt, sub.kind.trigger.period, now);
  }

  /** Over any clock readings the schedule stays on the grid and no tick sends twice. */
  lemma {:induction false} SeriesOnGrid(sub: Subscription, inputs: seq<(Selection, int)>)
    requires IsPeriodic(sub)
    ensures var o := FireAll(sub, inputs);
            |o.sent| <= |inputs|
            && (o.sub.Some? ==> OnGrid(o.sub.value.nextUpdateAt, sub.nextUpdateAt, sub.kind.trigger.period))
    decreases |inputs|
  {
    if inputs == [] {
      assert sub.nextUpdateAt == GridPoint(sub.nextUpdateAt, sub.kind.trigger.period, 0);
    } else {
      var (selection, now) := inputs[0];
      if !Expired(sub, now) {
        TickOnGrid(sub, selection, now);
        var next := FireUpdate(sub, selection, now).sub.value;
        SeriesOnGrid(next, inputs[1..]);
        var o := FireAll(next, inputs[1..]);
        if o.sub.Some? {
          OnGridTransitive(o.sub.value.nextUpdateAt, next.nextUpdateAt, sub.nextUpdateAt, sub.kind.trigger.period);
        }
      }
    }
  }

  ghost predicate NotBefore(sent: seq<Message>, t: int) {
    forall i :: 0 <= i < |sent| ==> sent[i].at >= t
  }

  /** Each message falls into a later grid interval than the one before. */
  ghost predicate Separated(sent: seq<Message>, base: int, period: Period) {
    forall i, j :: 0 <= i < j < |sent| ==> Cell(sent[i].at, base, period) < Cell(sent[j].at, base, period)
  }

  /** No two updates fall into the same grid interval, whatever the clock does. */
  lemma {:induction false} OneUpdatePerInterval(sub: Subscription, inputs: seq<(Selection, int)>, base: int)
    requires IsPeriodic(sub) && OnGrid(sub.nextUpdateAt, base, sub.kind.trigger.period)
    ensures NotBefore(FireAll(sub, inputs).sent, sub.nextUpdateAt)
    ensures Separated(FireAll(sub, inputs).sent, base, sub.kind.trigger.period)
    decreases |inputs|
  {
    if inputs != [] {
      var (selection, now) := inputs[0];
      if !Expired(sub, now) {
        TickOnGrid(sub, selection, now);
        var o := FireUpdate(sub, selection, now);
        var next, p := o.sub.value, sub.kind.trigger.period;
        OnGridTransitive(next.nextUpdateAt, sub.nextUpdateAt, base, p);
        OneUpdatePerInterval(next, inputs[1..], base);
        var rest := FireAll(next, inputs[1..]).sent;
        if sub.nextUpdateAt <= now {
          assert o.sent == [o.sent[0]];
          FirstThenRest(o.sent[0], rest, sub.nextUpdateAt, next.nextUpdateAt, base, p);
        } else {
          assert o.sent + rest == rest;
        }
      }
    }
  }

  lemma FirstThenRest(first: Message, rest: seq<Message>, due: int, next: int, base: int, p: Period)
    requires OnGrid(next, base, p) && due <= first.at < next
    requires NotBefore(rest, next) && Separated(rest, base, p)
    ensures NotBefore([first] + rest, due) && Separated([first] + rest, base, p)
  {
    var sent := [first] + rest;
    forall i, j | 0 <= i < j < |sent| ensures Cell(sent[i].at, base, p) < Cell(sent[j].at, base, p) {
      assert sent[j] == rest[j - 1];
      if i == 0 {
        CellsSeparated(first.at, rest[j - 1].at, next, base, p);
      } else {
        assert sent[i] == rest[i - 1];
      }
    }
  }
}
