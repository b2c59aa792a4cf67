/**
 The server's registry of connections: an id generator, a map from ids to
 heap-allocated contexts, and a queue of ids whose contexts are freed lazily, on
 the next listener event.
 */
module ConnectionRegistry {
  import opened Bytes

  /** An unsigned 64-bit connection id. */
  type Id = x: int | 0 <= x < TWO_64

  /** The identity of one allocation; an address that is reused is a new identity. */
  type Context = nat

  function NextId(id: Id): Id { (id + 1) % TWO_64 }

  /** Insertion leaves an entry that is already there alone. */
  function InsertNew(connections: map<Id, Context>, key: Id, value: Context): map<Id, Context> {
    if key in connections then connections else connections[key := value]
  }

  datatype Closing = Closing(connections: map<Id, Context>, queue: seq<Id>, deleted: seq<Context>, failed: bool)

  /** One id after the other; the checked lookup of an unknown id ends the job. */
  function CloseAll(connections: map<Id, Context>, queue: seq<Id>): Closing
    decreases |queue|
  {
    if queue == [] then Closing(connections, [], [], false)
    else if queue[0] !in connections then Closing(connections, queue[1..], [], true)
    else
      var c := CloseAll(connections - {queue[0]}, queue[1..]);
      c.(deleted := [connections[queue[0]]] + c.deleted)
  }

  class ConnectionMap {
    var connections: map<Id, Context>
    var generator: Id
    var closeQueue: seq<Id>
    ghost var deleted: seq<Context>

    constructor ()
      ensures connections == map[] && generator == 1 && closeQueue == [] && deleted == []
    {
      connections, generator, closeQueue, deleted := map[], 1, [], [];
    }

    method GenerateConnectionId() returns (id: Id)
      modifies this`generator
      ensures id == old(generator) && generator == NextId(id)
    {
      id := generator;
      generator := NextId(generator);
    }

    method InsertConnection(key: Id, value: Context)
      modifies this`connections
      ensures connections == InsertNew(old(connections), key, value)
    {
      if key !in connections {
        connections := connections[key := value];
      }
    }

    method RegisterConnectionRemove(key: Id)
      modifies this`closeQueue
      ensures closeQueue == old(closeQueue) + [key]
    {
      closeQueue := closeQueue + [key];
    }

    method ConnectionCloseJob() returns (failed: bool)
      modifies this`connections, this`closeQueue, this`deleted
      ensures old(deleted) <= deleted
      ensures Closing(connections, closeQueue, deleted[|old(deleted)|..], failed) == CloseAll(old(connections), old(closeQueue))
    {
      while closeQueue != []
        invariant old(deleted) <= deleted
        invariant CloseAll(old(connections), old(closeQueue))
               == Prepend(deleted[|old(deleted)|..], CloseAll(connections, closeQueue))
        decreases |closeQueue|
      {
        var id := closeQueue[0];
        closeQueue := closeQueue[1..];
        if id !in connections { return true; }
        var context := connections[id];
        connections := connections - {id};
        deleted := deleted + [context];
      }
      failed := false;
    }
  }

  function Prepend(deleted: seq<Context>, c: Closing): Closing {
    c.(deleted := deleted + c.deleted)
  }

  // ----- the job as one step -----

  ghost predicate NoDuplicates<T(!new)>(s: seq<T>) {
    forall i, j | 0 <= i < j < |s| :: s[i] != s[j]
  }

  function Elements<T>(s: seq<T>): set<T> {
    set x | x in s
  }

  /** The job succeeds exactly on a duplicate-free queue of live ids. */
  lemma {:induction false} CloseSucceedsExactly(connections: map<Id, Context>, queue: seq<Id>)
    ensures !CloseAll(connections, queue).failed <==> NoDuplicates(queue) && Elements(queue) <= connections.Keys
    decreases |queue|
  {
    if queue != [] {
      var id, rest := queue[0], queue[1..];
      if id in connections {
        CloseSucceedsExactly(connections - {id}, rest);
        if NoDuplicates(rest) && Elements(rest) <= (connections - {id}).Keys {
          forall i, j | 0 <= i < j < |queue| ensures queue[i] != queue[j] {
            assert queue[j] == rest[j - 1] && rest[j - 1] in Elements(rest);
            assert i > 0 ==> queue[i] == rest[i - 1];
          }
          assert Elements(queue) == Elements(rest) + {id};
        }
        if NoDuplicates(queue) && Elements(queue) <= connections.Keys {
          forall i, j | 0 <= i < j < |rest| ensures rest[i] != rest[j] {
            assert rest[i] == queue[i + 1] && rest[j] == queue[j + 1];
          }
          forall x | x in rest ensures x in connections - {id} {
            var i :| 0 <= i < |rest| && rest[i] == x;
            assert queue[i + 1] == x && x in Elements(queue);
          }
        }
      } else {
        assert id in Elements(queue);
      }
    }
  }

  /** A successful job removes the queued ids, and nothing else, and frees their contexts in queue order. */
  lemma {:induction false} CloseIsDifference(connections: map<Id, Context>, queue: seq<Id>)
    requires !CloseAll(connections, queue).failed
    ensures var c := CloseAll(connections, queue);
            && c.connections == connections - Elements(queue)
            && c.queue == []
            && |c.deleted| == |queue|
            && forall i | 0 <= i < |queue| :: queue[i] in connections && c.deleted[i] == connections[queue[i]]
    decreases |queue|
  {
    if queue == [] {
      assert connections - Elements(queue) == connections;
    } else {
      var id, rest := queue[0], queue[1..];
      CloseIsDifference(connections - {id}, rest);
      assert Elements(queue) == {id} + Elements(rest);
      assert connections - {id} - Elements(rest) == connections - Elements(queue);
      forall i | 0 <= i < |queue|
        ensures queue[i] in connections && CloseAll(connections, queue).deleted[i] == connections[queue[i]]
      {
        if i > 0 { assert queue[i] == rest[i - 1]; }
      }
    }
  }

  // ----- the generator -----

  /** The first n ids handed out. */
  function IssuedIds(n: nat): (ids: seq<Id>)
    ensures |ids| == n
  {
    seq(n, k requires 0 <= k < n => (1 + k) % TWO_64)
  }

  /** The ids handed out are distinct exactly up to 2^64 of them: then the generator has come round. */
  lemma IssuedDistinctExactly(n: nat)
    ensures NoDuplicates(IssuedIds(n)) <==> n <= 0x1_0000_0000_0000_0000
  {
    if n > TWO_64 {
      assert IssuedIds(n)[0] == IssuedIds(n)[TWO_64];
    }
  }
}
