/**
 * `Queue`: a list of commands, each tagged with a fresh `uuid` on the way
 * in. Unlike `CommandQueue`, reading the list does not empty it: `fetch`
 * hands out a copy and leaves the commands in place, and only `clear`
 * removes them. The lock around each body is not modelled; each method is
 * one atomic step.
 */
module Queues {
  import opened Wrappers
  import opened PyValues
  import opened Uuids

  class Queue {
    var commands: seq<Value>

    /** Every queued command is a dict with its own uuid. */
    predicate Valid()
      reads this
    {
      UniquelyTagged(commands)
    }

    constructor ()
      ensures Valid() && commands == []
    {
      commands := [];
    }

    /** A copy of the commands in queue order; nothing is removed. */
    method Fetch() returns (batch: seq<Value>)
      ensures batch == commands
    {
      batch := commands;
    }

    /** Empties the queue; clearing an empty queue is the same step. */
    method Clear()
      requires Valid()
      modifies this
      ensures Valid() && commands == []
    {
      commands := [];
    }

    /**
     * A dict is tagged with `freshId` and appended at the tail, every earlier
     * command staying where it was; anything else raises TypeError naming its
     * type, and the queue is left as it was.
     */
    method Add(command: Value, freshId: string) returns (r: Result<Reply, Raised>)
      requires Valid() && Unused(commands, freshId)
      modifies this
      ensures Valid()
      ensures r.Failure? <==> !command.Dict?
      ensures !command.Dict? ==>
        && commands == old(commands)
        && r.error == TypeError("Error: the command of type " + TypeName(command) + " is not valid. Expected dict.")
      ensures command.Dict? ==>
        && |commands| == |old(commands)| + 1
        && commands[..|old(commands)|] == old(commands)
        && commands[|old(commands)|] == Tag(command, freshId)
        && UuidOf(commands[|old(commands)|]) == Some(freshId)
        && r.value == Reply(QueuedBody(freshId), 200)
    {
      if !command.Dict? {
        r := Failure(TypeError("Error: the command of type " + TypeName(command) + " is not valid. Expected dict."));
        return;
      }
      var tagged := Tag(command, freshId);
      TagKeepsUnique(commands, command, freshId);
      commands := commands + [tagged];
      r := Success(Reply(QueuedBody(freshId), 200));
    }
  }
}
