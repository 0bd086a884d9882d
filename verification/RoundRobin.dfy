/** The round-robin scheduler: a queue of daemon names rotated by every pick. */
module RoundRobin {
  import opened Types

  /** The queue without the first occurrence of item. */
  function Dropped(queue: seq<string>, item: string): seq<string> {
    if queue == [] then []
    else if queue[0] == item then queue[1..]
    else [queue[0]] + Dropped(queue[1..], item)
  }

  function Appended(queue: seq<string>, item: string): seq<string> {
    if item in queue then queue else queue + [item]
  }

  function Rotated(queue: seq<string>): seq<string>
    requires queue != []
  {
    queue[1..] + [queue[0]]
  }

  lemma {:induction false} DroppedAt(queue: seq<string>, i: nat)
    requires i < |queue| && queue[i] !in queue[..i]
    ensures Dropped(queue, queue[i]) == queue[..i] + queue[i + 1..]
  {
    if i > 0 {
      assert queue[0] == queue[..i][0];
      assert queue[1..][..i - 1] == queue[..i][1..];
      DroppedAt(queue[1..], i - 1);
    }
  }

  lemma {:induction false} DroppedAbsent(queue: seq<string>, item: string)
    requires item !in queue
    ensures Dropped(queue, item) == queue
  {
    if queue != [] {
      DroppedAbsent(queue[1..], item);
    }
  }

  class Scheduler {
    var queue: seq<string>

    constructor ()
      ensures queue == []
    {
      queue := [];
    }

    method Append(item: string)
      modifies this
      ensures queue == Appended(old(queue), item)
      ensures queue == if item in old(queue) then old(queue) else old(queue) + [item]
    {
      if item in queue {
        return;
      }
      queue := queue + [item];
    }

    method Drop(item: string)
      modifies this
      ensures queue == Dropped(old(queue), item)
      ensures item !in old(queue) ==> queue == old(queue)
      ensures item in old(queue) ==> exists i ::
                && 0 <= i < |old(queue)| && old(queue)[i] == item && item !in old(queue)[..i]
                && queue == old(queue)[..i] + old(queue)[i + 1..]
    {
      for i := 0 to |queue|
        invariant queue == old(queue)
        invariant item !in queue[..i]
      {
        if queue[i] == item {
          DroppedAt(queue, i);
          queue := queue[..i] + queue[i + 1..];
          return;
        }
      }
      DroppedAbsent(queue, item);
    }

    predicate Exists(item: string)
      reads this
    {
      item in queue
    }

    method Pick() returns (r: Result<string>)
      modifies this
      ensures old(queue) == [] ==> r == Err(SchedulerEmpty) && queue == []
      ensures old(queue) != [] ==> r == Ok(old(queue)[0]) && queue == Rotated(old(queue))
      ensures old(queue) != [] ==> queue == old(queue)[1..] + [old(queue)[0]]
    {
      if |queue| == 0 {
        return Err(SchedulerEmpty);
      }
      var item := queue[0];
      queue := queue[1..] + [item];
      r := Ok(item);
    }
  }
}
