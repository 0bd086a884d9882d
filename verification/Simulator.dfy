/** The in-memory container runtime and the manager wrapped around it. */
module Simulator {
  import opened Types
  import opened Backend

  type Labels = map<string, string>

  datatype Container = Container(
    name: string,
    image: string,
    labels: Labels,
    running: bool,
    exitCode: int,
    output: Bytes
  )

  const FAIL_LABEL := "fail"

  /** A label filter: every listed label is present with the listed value. */
  predicate Matches(labels: Labels, filter: Labels) {
    forall k :: k in filter ==> k in labels && labels[k] == filter[k]
  }

  const START_FAILURE := "Simulated container start failure"

  function Ascii(text: string): Bytes {
    seq(|text|, i requires 0 <= i < |text| => (text[i] as int % 256) as bv8)
  }

  /** What starting does to a container; the label "fail" makes it exit at once, with a message on its output. */
  function Started(c: Container): Container {
    if FAIL_LABEL in c.labels then c.(running := false, exitCode := 1, output := Ascii(START_FAILURE))
    else c.(running := true, exitCode := 0)
  }

  /** What the environment does when a running container ends on its own. */
  function Exited(c: Container, code: int, output: Bytes): Container {
    if c.running then c.(running := false, exitCode := code, output := output) else c
  }

  /** Container number n stands for the id "sim-n"; fails foretells which calls of Create and Start are refused, in the
      order in which they are made. */
  class ContainerManager {
    var containers: map<nat, Container>
    var nextID: nat
    var images: set<string>
    var ops: nat
    const fails: nat -> bool

    constructor (fails: nat -> bool)
      ensures containers == map[] && nextID == 1 && images == {} && ops == 0 && this.fails == fails
    {
      this.fails := fails;
      containers, nextID, images, ops := map[], 1, {}, 0;
    }

    method Create(name: string, image: string, labels: Labels) returns (r: Result<nat>)
      modifies this
      ensures ops == old(ops) + 1 && (r.Err? <==> fails(old(ops)))
      ensures r.Err? ==> containers == old(containers) && nextID == old(nextID)
      ensures r.Ok? ==>
                && r.value == old(nextID) && nextID == old(nextID) + 1 && image in images
                && containers == old(containers)[old(nextID) := Container(name, image, labels, false, 0, [])]
    {
      ops := ops + 1;
      if fails(ops - 1) {
        return Err(CreateFailed);
      }
      images := images + {image};
      var id := nextID;
      nextID := nextID + 1;
      containers := containers[id := Container(name, image, labels, false, 0, [])];
      r := Ok(id);
    }

    /** A container with the label "fail" exits at once; any other runs. */
    method Start(id: nat) returns (r: Result<()>)
      modifies this`containers, this`ops
      ensures ops == old(ops) + 1
      ensures id !in old(containers) ==> r == Err(NotFound)
      ensures id in old(containers) ==> (r.Err? <==> fails(old(ops)))
      ensures r.Err? ==> containers == old(containers)
      ensures r.Ok? ==> id in old(containers) && containers == old(containers)[id := Started(old(containers)[id])]
      ensures r.Ok? ==>
                var c := old(containers)[id];
                if FAIL_LABEL in c.labels
                then containers[id] == c.(running := false, exitCode := 1, output := Ascii(START_FAILURE))
                else containers[id] == c.(running := true, exitCode := 0)
    {
      ops := ops + 1;
      if id !in containers {
        return Err(NotFound);
      }
      if fails(ops - 1) {
        return Err(StartFailed);
      }
      containers := containers[id := Started(containers[id])];
      r := Ok(());
    }

    method Stop(id: nat) returns (r: Result<()>)
      modifies this`containers
      ensures r.Err? <==> id !in old(containers)
      ensures containers == if id in old(containers)
        then old(containers)[id := old(containers)[id].(running := false)] else old(containers)
    {
      if id !in containers {
        return Err(NotFound);
      }
      containers := containers[id := containers[id].(running := false)];
      r := Ok(());
    }

    method Remove(id: nat) returns (r: Result<()>)
      modifies this`containers
      ensures r.Err? <==> id !in old(containers)
      ensures containers == old(containers) - {id}
    {
      if id !in containers {
        return Err(NotFound);
      }
      containers := containers - {id};
      r := Ok(());
    }

    /** Every matching container, running or not, once each; the order of ids is left open. */
    method List(filter: Labels) returns (ids: seq<nat>)
      ensures Enumerates(ids, set i | i in containers && Matches(containers[i].labels, filter))
    {
      ids := [];
      var rest := containers.Keys;
      while rest != {}
        invariant rest <= containers.Keys
        invariant forall i :: i in ids <==> i in containers && i !in rest && Matches(containers[i].labels, filter)
        invariant forall i, j :: 0 <= i < j < |ids| ==> ids[i] != ids[j]
        decreases rest
      {
        var id :| id in rest;
        rest := rest - {id};
        if !Matches(containers[id].labels, filter) {
          continue;
        }
        ids := ids + [id];
      }
    }

    /** Inspecting: exited means not running, and only then is the exit code reported. */
    function Get(id: nat): Result<(bool, int, Labels)>
      reads this
    {
      if id !in containers then Err(NotFound)
      else
        var c := containers[id];
        Ok((!c.running, if c.running then 0 else c.exitCode, c.labels))
    }
  }
}
