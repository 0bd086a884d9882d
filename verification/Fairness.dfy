/** Fairness of the scheduler over arbitrary interleavings of its three operations. */
module Fairness {
  import opened RoundRobin

  datatype Op = AppendOp(name: string) | DropOp(name: string) | PickOp

  ghost predicate NoDup(q: seq<string>) {
    forall i, j :: 0 <= i < j < |q| ==> q[i] != q[j]
  }

  function Next(q: seq<string>, op: Op): seq<string> {
    match op
    case AppendOp(n) => Appended(q, n)
    case DropOp(n) => Dropped(q, n)
    case PickOp => if q == [] then q else Rotated(q)
  }

  function Run(q: seq<string>, ops: seq<Op>): seq<string>
    decreases |ops|
  {
    if ops == [] then q else Run(Next(q, ops[0]), ops[1..])
  }

  /** The names picked during a run, in order; a pick of the empty queue yields none. */
  function Picks(q: seq<string>, ops: seq<Op>): seq<string>
    decreases |ops|
  {
    if ops == [] then []
    else Picked(q, ops[0]) + Picks(Next(q, ops[0]), ops[1..])
  }

  function Count(s: seq<string>, x: string): nat {
    if s == [] then 0 else (if s[0] == x then 1 else 0) + Count(s[1..], x)
  }

  /** Position of the first occurrence of x, or the length of the queue. */
  function Position(q: seq<string>, x: string): (p: nat)
    ensures p <= |q|
    ensures p < |q| ==> q[p] == x
    ensures p < |q| <==> x in q
    ensures forall i :: 0 <= i < p ==> q[i] != x
  {
    if q == [] || q[0] == x then 0 else 1 + Position(q[1..], x)
  }

  lemma {:induction false} DroppedKeeps(q: seq<string>, n: string, x: string)
    requires x != n
    ensures x in Dropped(q, n) <==> x in q
    ensures Position(Dropped(q, n), x) <= Position(q, x)
  {
    if q != [] && q[0] != n {
      DroppedKeeps(q[1..], n, x);
      assert Dropped(q, n)[1..] == Dropped(q[1..], n);
    }
  }

  lemma NoDupTail(q: seq<string>)
    requires NoDup(q) && q != []
    ensures NoDup(q[1..]) && q[0] !in q[1..]
  {
    assert forall i :: 0 <= i < |q[1..]| ==> q[1..][i] == q[i + 1];
  }

  lemma {:induction false} DroppedMembers(q: seq<string>, n: string, x: string)
    requires NoDup(q)
    ensures x in Dropped(q, n) <==> x in q && x != n
  {
    if q != [] {
      NoDupTail(q);
      assert q == [q[0]] + q[1..];
      DroppedMembers(q[1..], n, x);
    }
  }

  lemma {:induction false} DroppedNoDup(q: seq<string>, n: string)
    requires NoDup(q)
    ensures NoDup(Dropped(q, n))
  {
    if q != [] {
      var t := q[1..];
      NoDupTail(q);
      DroppedNoDup(t, n);
      if q[0] != n {
        DroppedMembers(t, n, q[0]);
        assert Dropped(q, n) == [q[0]] + Dropped(t, n);
      }
    }
  }

  lemma NextNoDup(q: seq<string>, op: Op)
    requires NoDup(q)
    ensures NoDup(Next(q, op))
  {
    if op.DropOp? {
      DroppedNoDup(q, op.name);
    }
  }

  /** 1 when a stands ahead of b in the queue, 0 otherwise. */
  function Ahead(q: seq<string>, a: string, b: string): int {
    if Position(q, a) < Position(q, b) then 1 else 0
  }

  lemma {:induction false} DroppedOrder(q: seq<string>, n: string, a: string, b: string)
    requires a in q && b in q && a != n && b != n
    ensures Ahead(Dropped(q, n), a, b) == Ahead(q, a, b)
  {
    if q[0] == n {
    } else if q[0] == a {
      assert Position(Dropped(q, n), a) == 0;
    } else if q[0] == b {
      assert Position(Dropped(q, n), b) == 0;
    } else {
      DroppedOrder(q[1..], n, a, b);
      assert Dropped(q, n)[1..] == Dropped(q[1..], n);
    }
  }

  lemma {:induction false} PositionInConcat(s: seq<string>, t: seq<string>, x: string)
    ensures Position(s + t, x) == if x in s then Position(s, x) else |s| + Position(t, x)
  {
    if s == [] {
      assert s + t == t;
    } else {
      assert (s + t)[1..] == s[1..] + t;
      assert s == [s[0]] + s[1..];
      PositionInConcat(s[1..], t, x);
    }
  }

  lemma RotatedOrder(q: seq<string>, a: string, b: string)
    requires NoDup(q) && a in q && b in q && a != b
    ensures a in Rotated(q) && b in Rotated(q)
    ensures Ahead(q, a, b) - Ahead(Rotated(q), a, b) == (if q[0] == a then 1 else 0) - (if q[0] == b then 1 else 0)
  {
    var h, t := q[0], q[1..];
    assert q == [h] + t;
    NoDupTail(q);
    PositionInConcat(t, [h], a);
    PositionInConcat(t, [h], b);
  }

  /** What one step picks. */
  function Picked(q: seq<string>, op: Op): seq<string> {
    if op == PickOp && q != [] then [q[0]] else []
  }

  lemma StepOrder(q: seq<string>, op: Op, a: string, b: string)
    requires NoDup(q) && a in q && b in q && a != b && op != DropOp(a) && op != DropOp(b)
    ensures a in Next(q, op) && b in Next(q, op)
    ensures Count(Picked(q, op), a) - Count(Picked(q, op), b) == Ahead(q, a, b) - Ahead(Next(q, op), a, b)
  {
    match op {
      case AppendOp(n) =>
        PositionInConcat(q, [n], a);
        PositionInConcat(q, [n], b);
      case DropOp(n) =>
        DroppedMembers(q, n, a);
        DroppedMembers(q, n, b);
        DroppedOrder(q, n, a, b);
      case PickOp =>
        RotatedOrder(q, a, b);
    }
  }

  lemma {:induction false} CountConcat(s: seq<string>, t: seq<string>, x: string)
    ensures Count(s + t, x) == Count(s, x) + Count(t, x)
  {
    if s == [] {
      assert s + t == t;
    } else {
      assert (s + t)[1..] == s[1..] + t;
      CountConcat(s[1..], t, x);
    }
  }

  /** Two names that are never dropped: the difference of their pick counts is exactly the change of
      their relative order, whatever else is appended, dropped or picked. */
  lemma {:induction false} PairwiseFairness(q: seq<string>, ops: seq<Op>, a: string, b: string)
    requires NoDup(q) && a in q && b in q && a != b
    requires DropOp(a) !in ops && DropOp(b) !in ops
    ensures Count(Picks(q, ops), a) - Count(Picks(q, ops), b) == Ahead(q, a, b) - Ahead(Run(q, ops), a, b)
    ensures -1 <= Count(Picks(q, ops), a) - Count(Picks(q, ops), b) <= 1
    decreases |ops|
  {
    if ops != [] {
      var op, rest := ops[0], ops[1..];
      assert op in ops;
      assert forall o :: o in rest ==> o in ops;
      StepOrder(q, op, a, b);
      NextNoDup(q, op);
      PairwiseFairness(Next(q, op), rest, a, b);
      CountConcat(Picked(q, op), Picks(Next(q, op), rest), a);
      CountConcat(Picked(q, op), Picks(Next(q, op), rest), b);
    }
  }

  function PickOps(ops: seq<Op>): nat {
    if ops == [] then 0 else (if ops[0] == PickOp then 1 else 0) + PickOps(ops[1..])
  }

  /** A name at position p that is not dropped is among the next p + 1 picks. */
  lemma {:induction false} BoundedWaiting(q: seq<string>, ops: seq<Op>, x: string)
    requires x in q && DropOp(x) !in ops
    requires PickOps(ops) > Position(q, x)
    ensures x in Picks(q, ops) && Position(Picks(q, ops), x) <= Position(q, x)
    decreases |ops|
  {
    var op, rest := ops[0], ops[1..];
    assert op in ops;
    assert forall o :: o in rest ==> o in ops;
    var q' := Next(q, op);
    match op {
      case PickOp =>
        assert q == [q[0]] + q[1..];
        PositionInConcat([q[0]], q[1..], x);
        PositionInConcat(q[1..], [q[0]], x);
        if q[0] != x {
          BoundedWaiting(q', rest, x);
        }
        PositionInConcat([q[0]], Picks(q', rest), x);
      case AppendOp(n) =>
        PositionInConcat(q, [n], x);
        BoundedWaiting(q', rest, x);
        assert Picks(q, ops) == Picks(q', rest);
      case DropOp(n) =>
        DroppedKeeps(q, n, x);
        BoundedWaiting(q', rest, x);
        assert Picks(q, ops) == Picks(q', rest);
    }
  }

  /** k picks of a queue of n distinct names: the name at position j is picked (k + n - 1 - j) / n times. */
  lemma {:induction false} ExactShare(q: seq<string>, k: nat, j: nat)
    requires NoDup(q) && j < |q|
    ensures Count(Picks(q, OnlyPicks(k)), q[j]) == (k + |q| - 1 - j) / |q|
  {
    ShareBounds(q, k, j);
    Quotient(k + |q| - 1 - j, |q|, Count(Picks(q, OnlyPicks(k)), q[j]));
  }

  function OnlyPicks(k: nat): seq<Op> {
    if k == 0 then [] else [PickOp] + OnlyPicks(k - 1)
  }

  lemma {:induction false} ShareBounds(q: seq<string>, k: nat, j: nat)
    requires NoDup(q) && j < |q|
    ensures var c := Count(Picks(q, OnlyPicks(k)), q[j]);
      |q| * c <= k + |q| - 1 - j < |q| * c + |q|
    decreases k
  {
    if k > 0 {
      var q' := Rotated(q);
      var j' := if j == 0 then |q| - 1 else j - 1;
      NextNoDup(q, PickOp);
      ShareBounds(q', k - 1, j');
      assert q'[j'] == q[j] && (q[0] == q[j] <==> j == 0);
      CountConcat([q[0]], Picks(q', OnlyPicks(k - 1)), q[j]);
      OneMore(|q|, Count(Picks(q', OnlyPicks(k - 1)), q[j]));
    }
  }

  lemma OneMore(n: int, c: int)
    ensures n * (1 + c) == n * c + n
  {
  }

  lemma Quotient(x: int, n: int, c: int)
    requires n > 0 && n * c <= x < n * c + n
    ensures x / n == c
  {
    var q := x / n;
    assert x == n * q + x % n;
    assert n * (q - c) == n * q - n * c;
    NoMultipleBetween(n, q - c);
  }

  lemma NoMultipleBetween(n: int, d: int)
    requires n > 0 && -n < n * d < n
    ensures d == 0
  {
  }

  /** With n fixed names, k picks give every name floor(k/n) or ceil(k/n). */
  lemma Balance(q: seq<string>, k: nat, x: string)
    requires NoDup(q) && x in q
    ensures k / |q| <= Count(Picks(q, OnlyPicks(k)), x) <= (k + |q| - 1) / |q|
  {
    var j := Position(q, x);
    ExactShare(q, k, j);
    DivMonotone(k, k + |q| - 1 - j, |q|);
    DivMonotone(k + |q| - 1 - j, k + |q| - 1, |q|);
  }

  lemma DivMonotone(a: nat, b: nat, n: nat)
    requires a <= b && n > 0
    ensures a / n <= b / n
  {
    var p, q := a / n, b / n;
    assert a == n * p + a % n && b == n * q + b % n;
    assert n * (p - q) == n * p - n * q;
    NoMultipleAbove(n, p - q);
  }

  lemma NoMultipleAbove(n: int, d: int)
    requires n > 0 && n * d < n
    ensures d <= 0
  {
  }
}
