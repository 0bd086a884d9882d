/** The time-to-live bound over whole runs. */
module Expiry {
  import opened Types
  import opened Lifecycle
  import opened World

  /** When the expiry worker last ticked before step i; the start of the run counts as a tick. */
  function LastTick(w: WorldState, acts: seq<Action>, i: nat): int
    requires i <= |acts|
  {
    if i == 0 then w.clock
    else if acts[i - 1] == ExpireTick then Before(w, acts, i - 1).clock
    else LastTick(w, acts, i - 1)
  }

  ghost predicate TicksWithin(w: WorldState, acts: seq<Action>, interval: int) {
    forall i :: 0 <= i <= |acts| ==> Before(w, acts, i).clock <= LastTick(w, acts, i) + interval
  }

  ghost predicate RunningAt(w: WorldState, acts: seq<Action>, i: nat, id: string)
    requires i <= |acts|
  {
    id in Before(w, acts, i).store && Before(w, acts, i).store[id].status == Running
  }

  function Deadline(s: Session): int {
    s.createdAt + s.spec.ttl
  }

  /** One tick leaves no expired running session, stops exactly those, and changes nothing else. */
  lemma TickStopsExpired(w: WorldState, id: string)
    requires id in w.store
    ensures var s, s' := w.store[id], Next(w, ExpireTick).store[id];
      && !(s'.status == Running && Deadline(s') < w.clock)
      && (if s.status == Running && Deadline(s) < w.clock then s' == s.(status := Stopped) else s' == s)
  {
  }

  /** While a session stays running, no tick happens after both its deadline and its start. */
  lemma {:induction false} NoLateTick(w: WorldState, acts: seq<Action>, r: nat, j: nat, id: string)
    requires r <= j <= |acts| && RunningAt(w, acts, r, id)
    requires forall i :: r <= i <= j ==> RunningAt(w, acts, i, id)
    ensures LastTick(w, acts, j) <= Before(w, acts, r).clock
         || LastTick(w, acts, j) <= Deadline(Before(w, acts, r).store[id])
    decreases j
  {
    hide Next, Run;
    if r < j {
      NoLateTick(w, acts, r, j - 1, id);
      if acts[j - 1] == ExpireTick {
        var v := Before(w, acts, j - 1);
        OneStep(w, acts, j - 1);
        assert RunningAt(w, acts, j - 1, id) && RunningAt(w, acts, j, id);
        TickStopsExpired(v, id);
        StatusOrder(w, acts, r, j - 1);
        assert Successor(Before(w, acts, r).store[id], v.store[id]);
      }
    } else {
      TickNotLate(w, acts, r);
    }
  }

  lemma {:induction false} TickNotLate(w: WorldState, acts: seq<Action>, i: nat)
    requires i <= |acts|
    ensures LastTick(w, acts, i) <= Before(w, acts, i).clock
    decreases i
  {
    if i > 0 {
      hide Progress;
      TickNotLate(w, acts, i - 1);
      StatusOrder(w, acts, i - 1, i);
    }
  }

  /** With ticks at most one interval apart, no session is Running for more than an interval past the later
      of its deadline and the moment r from which it has been Running. */
  lemma TtlBound(w: WorldState, acts: seq<Action>, interval: int, r: nat, j: nat, id: string)
    requires TicksWithin(w, acts, interval)
    requires r <= j <= |acts| && RunningAt(w, acts, r, id)
    requires forall i :: r <= i <= j ==> RunningAt(w, acts, i, id)
    ensures var start, deadline := Before(w, acts, r).clock, Deadline(Before(w, acts, r).store[id]);
      Before(w, acts, j).clock <= (if start < deadline then deadline else start) + interval
  {
    NoLateTick(w, acts, r, j, id);
  }
}
