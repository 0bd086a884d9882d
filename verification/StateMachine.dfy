/** The table of allowed status changes, and the order it induces on a session's life. */
module StateMachine {
  import opened Types

  const TABLE: map<Status, seq<Status>> := map[
    Pending := [Running, Stopped, Failed, Finished],
    Running := [Stopped, Failed, Finished],
    Stopped := [Finished],
    Failed := [],
    Finished := []
  ]

  function Transition(from: Status, to: Status): Status {
    if from !in TABLE then from
    else if to in TABLE[from] then to
    else from
  }

  function Rank(s: Status): nat {
    match s
    case Pending => 0
    case Running => 1
    case Stopped => 2
    case Failed => 3
    case Finished => 3
    case OtherStatus(_) => 4
  }

  predicate Terminal(s: Status) {
    s == Failed || s == Finished
  }

  /** The edges of the table, told by rank: strictly upwards, except that a stopped session cannot fail. */
  predicate Edge(from: Status, to: Status) {
    Rank(from) < Rank(to) <= 3 && !(from == Stopped && to == Failed)
  }

  predicate Later(from: Status, to: Status) {
    from == to || Edge(from, to)
  }

  lemma TransitionFollowsEdges(from: Status, to: Status)
    ensures Transition(from, to) == if Edge(from, to) then to else from
  {
    match from {
      case Pending =>
      case Running =>
      case Stopped => assert TABLE[Stopped] == [Finished];
      case Failed =>
      case Finished =>
      case OtherStatus(_) => assert from !in TABLE;
    }
  }

  lemma EdgeChanges(from: Status, to: Status)
    ensures Edge(from, to) ==> from != to
  {
  }

  /** The eight changes that are granted, and no others. */
  lemma GrantedChanges(from: Status, to: Status)
    ensures Transition(from, to) == to != from <==> (from, to) in {
      (Pending, Running), (Pending, Stopped), (Pending, Failed), (Pending, Finished),
      (Running, Stopped), (Running, Failed), (Running, Finished), (Stopped, Finished)}
    ensures Transition(from, to) in {from, to}
  {
    TransitionFollowsEdges(from, to);
  }

  /** The table is transitively closed, so two statuses of one life are never more than one edge apart. */
  lemma LaterIsPartialOrder(a: Status, b: Status, c: Status)
    ensures Later(a, a)
    ensures Later(a, b) && Later(b, a) ==> a == b
    ensures Later(a, b) && Later(b, c) ==> Later(a, c)
    ensures Later(a, b) && Terminal(a) ==> a == b
    ensures Later(a, b) && b == Pending ==> a == Pending
  {
  }
}
