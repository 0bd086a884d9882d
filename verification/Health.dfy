/** The daemon health worker, which feeds the scheduler, and the freshness of what the scheduler hands out. */
module Health {
  import opened RoundRobin
  import opened Fairness

  /** The queue without the first occurrence of each given name. */
  function Without(q: seq<string>, gone: set<string>): seq<string> {
    if q == [] then []
    else if q[0] in gone then Without(q[1..], gone - {q[0]})
    else [q[0]] + Without(q[1..], gone)
  }

  lemma {:induction false} WithoutMembers(q: seq<string>, gone: set<string>, x: string)
    requires NoDup(q)
    ensures x in Without(q, gone) <==> x in q && x !in gone
  {
    if q != [] {
      NoDupTail(q);
      assert q == [q[0]] + q[1..];
      WithoutMembers(q[1..], if q[0] in gone then gone - {q[0]} else gone, x);
    }
  }

  lemma {:induction false} WithoutNone(q: seq<string>)
    ensures Without(q, {}) == q
  {
    if q != [] {
      WithoutNone(q[1..]);
    }
  }

  lemma {:induction false} WithoutNoDup(q: seq<string>, gone: set<string>)
    requires NoDup(q)
    ensures NoDup(Without(q, gone))
  {
    if q != [] {
      NoDupTail(q);
      WithoutNoDup(q[1..], if q[0] in gone then gone - {q[0]} else gone);
      WithoutMembers(q[1..], gone, q[0]);
    }
  }

  /** Names can be dropped one by one in any order. */
  lemma {:induction false} DropOneMore(q: seq<string>, gone: set<string>, x: string)
    requires x !in gone
    ensures Dropped(Without(q, gone), x) == Without(q, gone + {x})
  {
    if q != [] {
      if q[0] == x {
        assert gone + {x} - {x} == gone;
      } else if q[0] in gone {
        assert gone + {x} - {q[0]} == gone - {q[0]} + {x};
        DropOneMore(q[1..], gone - {q[0]}, x);
      } else {
        DropOneMore(q[1..], gone, x);
      }
    }
  }

  ghost predicate Stale(health: map<string, int>, now: int, interval: int, d: string) {
    d in health && now - health[d] > interval
  }

  ghost function StaleNames(health: map<string, int>, now: int, interval: int): set<string> {
    set d | d in health && now - health[d] > interval
  }

  class HealthWorker {
    const scheduler: Scheduler
    const interval: int
    var health: map<string, int>

    constructor (scheduler: Scheduler, interval: int)
      ensures this.scheduler == scheduler && this.interval == interval && health == map[]
    {
      this.scheduler := scheduler;
      this.interval := interval;
      health := map[];
    }

    method Receive(dockerd: string, now: int)
      modifies this, scheduler
      ensures health == old(health)[dockerd := now]
      ensures scheduler.queue == Appended(old(scheduler.queue), dockerd)
      ensures scheduler.queue ==
              if dockerd in old(scheduler.queue) then old(scheduler.queue) else old(scheduler.queue) + [dockerd]
    {
      health := health[dockerd := now];
      scheduler.Append(dockerd);
    }

    method Tick(now: int)
      modifies this, scheduler
      ensures health == old(health) - StaleNames(old(health), now, interval)
      ensures forall d :: d in health <==> d in old(health) && now - old(health)[d] <= interval
      ensures forall d :: d in health ==> health[d] == old(health)[d]
      ensures NoDup(old(scheduler.queue)) ==> forall d :: d in scheduler.queue <==>
        d in old(scheduler.queue) && !(d in old(health) && now - old(health)[d] > interval)
      ensures scheduler.queue == Without(old(scheduler.queue), StaleNames(old(health), now, interval))
    {
      ghost var q := scheduler.queue;
      ghost var gone: set<string> := {};
      var before := health;
      var rest := health.Keys;
      WithoutNone(q);
      while rest != {}
        invariant rest <= before.Keys && gone <= before.Keys - rest
        invariant forall d :: d in before.Keys - rest ==> (d in gone <==> Stale(before, now, interval, d))
        invariant health == before - gone
        invariant scheduler.queue == Without(q, gone)
        decreases rest
      {
        var dockerd :| dockerd in rest;
        rest := rest - {dockerd};
        if now - before[dockerd] > interval {
          health := health - {dockerd};
          scheduler.Drop(dockerd);
          DropOneMore(q, gone, dockerd);
          gone := gone + {dockerd};
        }
      }
      assert gone == StaleNames(before, now, interval);
      if NoDup(q) {
        forall d ensures d in Without(q, gone) <==> d in q && d !in gone {
          WithoutMembers(q, gone, d);
        }
      }
    }
  }

  // ---- Freshness over whole runs -------------------------------------------------------------

  datatype HealthOp = ReportOp(name: string, at: int) | TickOp(at: int) | TakeOp(at: int)

  datatype HealthState = HealthState(health: map<string, int>, queue: seq<string>, lastTick: int, clock: int)

  ghost function Step(s: HealthState, op: HealthOp, interval: int): HealthState {
    match op
    case ReportOp(d, t) => HealthState(s.health[d := t], Appended(s.queue, d), s.lastTick, t)
    case TickOp(t) =>
      var gone := StaleNames(s.health, t, interval);
      HealthState(s.health - gone, Without(s.queue, gone), t, t)
    case TakeOp(t) => s.(queue := Next(s.queue, PickOp), clock := t)
  }

  ghost function Run(start: int, interval: int, ops: seq<HealthOp>): HealthState {
    if ops == [] then HealthState(map[], [], start, start)
    else Step(Run(start, interval, ops[..|ops| - 1]), ops[|ops| - 1], interval)
  }

  /** Time does not run backwards, and no instant is more than one interval after the latest tick. */
  ghost predicate Timely(start: int, interval: int, ops: seq<HealthOp>) {
    ops != [] ==>
      var before := ops[..|ops| - 1];
      var s := Run(start, interval, before);
      Timely(start, interval, before) && s.clock <= ops[|ops| - 1].at <= s.lastTick + interval
  }

  /** The queue is duplicate-free and holds exactly the health map's names, each reported recently enough. */
  ghost predicate Consistent(s: HealthState, interval: int, ops: seq<HealthOp>) {
    && NoDup(s.queue)
    && (forall d :: d in s.queue <==> d in s.health)
    && (forall d :: d in s.health ==>
      ReportOp(d, s.health[d]) in ops && s.lastTick - interval <= s.health[d] <= s.clock)
    && s.lastTick <= s.clock
  }

  lemma {:induction false} StaysConsistent(start: int, interval: int, ops: seq<HealthOp>)
    requires 0 <= interval && Timely(start, interval, ops)
    ensures Consistent(Run(start, interval, ops), interval, ops)
  {
    if ops != [] {
      var before, op := ops[..|ops| - 1], ops[|ops| - 1];
      StaysConsistent(start, interval, before);
      var s := Run(start, interval, before);
      assert forall o :: o in before ==> o in ops;
      assert op in ops;
      match op {
        case ReportOp(d, t) =>
        case TickOp(t) =>
          var gone := StaleNames(s.health, t, interval);
          WithoutNoDup(s.queue, gone);
          forall d ensures d in Without(s.queue, gone) <==> d in s.queue && d !in gone {
            WithoutMembers(s.queue, gone, d);
          }
        case TakeOp(t) =>
          NextNoDup(s.queue, PickOp);
          assert forall d :: d in Next(s.queue, PickOp) <==> d in s.queue;
      }
    }
  }

  /** A daemon that Pick returns at time t sent a report at most two intervals earlier. */
  lemma Freshness(start: int, interval: int, ops: seq<HealthOp>, t: int)
    requires 0 <= interval && Timely(start, interval, ops + [TakeOp(t)])
    requires Run(start, interval, ops).queue != []
    ensures exists r :: ReportOp(Run(start, interval, ops).queue[0], r) in ops && 0 <= t - r <= 2 * interval
  {
    assert (ops + [TakeOp(t)])[..|ops|] == ops;
    StaysConsistent(start, interval, ops);
    var s := Run(start, interval, ops);
    var d := s.queue[0];
    assert d in s.health;
    assert ReportOp(d, s.health[d]) in ops && 0 <= t - s.health[d] <= 2 * interval;
  }

  /** A daemon that keeps reporting stays: whoever reported at most one interval before every later tick is still
      there. */
  lemma {:induction false} RecentStays(start: int, interval: int, ops: seq<HealthOp>, d: string, r: int, i: nat)
    requires 0 <= interval && Timely(start, interval, ops)
    requires i < |ops| && ops[i] == ReportOp(d, r)
    requires forall j :: i < j < |ops| && ops[j].TickOp? ==> ops[j].at - r <= interval
    ensures d in Run(start, interval, ops).health && d in Run(start, interval, ops).queue
    ensures Run(start, interval, ops).health[d] >= r
  {
    StaysConsistent(start, interval, ops);
    var n := |ops| - 1;
    var before := ops[..n];
    if i < n {
      assert before[i] == ops[i] && forall j :: i < j < n ==> before[j] == ops[j];
      RecentStays(start, interval, before, d, r, i);
      StaysConsistent(start, interval, before);
    }
  }

  /** The bound is exact: a pick can return a daemon whose only report is two intervals old. */
  lemma FreshnessIsTight(interval: int)
    requires 0 <= interval
    ensures var ops := [ReportOp("d", 0), TickOp(interval)];
      Timely(0, interval, ops + [TakeOp(2 * interval)]) && Run(0, interval, ops).queue == ["d"]
  {
    var o1, o2, o3 := ReportOp("d", 0), TickOp(interval), TakeOp(2 * interval);
    var ops := [o1, o2];
    assert (ops + [o3])[..2] == ops && ops[..1] == [o1] && [o1][..0] == [];
    assert Run(0, interval, [o1]) == HealthState(map["d" := 0], ["d"], 0, 0);
    assert StaleNames(map["d" := 0], interval, interval) == {};
    WithoutNone(["d"]);
    assert Run(0, interval, ops) == HealthState(map["d" := 0], ["d"], interval, interval);
    assert Timely(0, interval, [o1]);
    assert Timely(0, interval, ops);
  }
}
