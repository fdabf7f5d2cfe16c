/**
 * `CommandQueue`: the relay's pending-command list paired with its response
 * table. `enqueue_command` validates a command, gives it a fresh id, appends
 * it and registers the id with no response yet; `get_commands` hands out the
 * whole list and empties it in one step (each command is handed out at most
 * once); `update_status` stores the status a worker reports for a
 * registered id; `get_response` reads it back, answering 404 alike for an
 * unknown id and for one still waiting.
 *
 * The operations are first given as functions on the abstract `Store`, so
 * that lemmas can speak about sequences of calls; the `CommandQueue` class
 * below updates its fields in place and is proved to agree with them.
 */
module CommandQueues {
  import opened Wrappers
  import opened PyValues

  /**
   * The queue's state: pending commands in arrival order, and for every id
   * ever issued either `None` (no status yet) or the last status reported.
   */
  datatype Store = Store(commands: seq<Value>, responses: map<string, Option<Value>>)

  /** What `enqueue_command` accepts: a dict with an `endpoint` key. */
  predicate IsCommand(v: Value)
  {
    v.Dict? && "endpoint" in v.entries
  }

  /** The string under the `id` key of a queued command, if it has one. */
  function IdOf(c: Value): Option<string>
  {
    if c.Dict? && "id" in c.entries && c.entries["id"].Str? then Some(c.entries["id"].s) else None
  }

  /**
   * The store's invariant: every pending command is a valid command whose
   * id is registered in the response table, and no two pending commands
   * share an id.
   */
  predicate Consistent(s: Store)
  {
    && (forall i :: 0 <= i < |s.commands| ==>
          IsCommand(s.commands[i]) && IdOf(s.commands[i]).Some? && IdOf(s.commands[i]).value in s.responses)
    && DistinctIds(s.commands)
  }

  /** Every command carries an id and no two carry the same one. */
  predicate DistinctIds(cs: seq<Value>)
  {
    && (forall i :: 0 <= i < |cs| ==> IdOf(cs[i]).Some?)
    && (forall i, j :: 0 <= i < j < |cs| ==> IdOf(cs[i]) != IdOf(cs[j]))
  }

  /** `command["id"] = id` */
  function WithId(command: Value, id: string): Value
    requires command.Dict?
  {
    SetItem(command, "id", Str(id))
  }

  /** `{"status": "queued", "command_id": id}` */
  function CommandQueuedBody(id: string): Value
  {
    Dict(map["status" := Str("queued"), "command_id" := Str(id)])
  }

  const InternalError := Reply(ErrorBody("Internal server error"), 500)

  /**
   * `get_commands`: the batch is every pending command in arrival order;
   * afterwards nothing is pending and the response table is as it was.
   */
  function Drain(s: Store): (r: (seq<Value>, Store))
    ensures r.0 + r.1.commands == s.commands && r.1.commands == []
    ensures r.1.responses == s.responses
  {
    (s.commands, Store([], s.responses))
  }

  /**
   * `enqueue_command`: a value that is not a dict with an `endpoint` is
   * refused with 400 before anything changes. Otherwise the command, with its
   * `id` set to `id` (overwriting any id the caller sent) and every other
   * field kept, joins the tail; `id` becomes a registered key with no
   * response; the rest of the table is untouched.
   */
  function Enqueue(s: Store, command: Value, id: string): (r: (Store, Reply))
    ensures r.1.code == 200 <==> IsCommand(command)
    ensures !IsCommand(command) ==> r.0 == s && r.1 == Reply(ErrorBody("Invalid command format"), 400)
    ensures IsCommand(command) ==>
      && |r.0.commands| == |s.commands| + 1
      && r.0.commands[..|s.commands|] == s.commands
      && IsCommand(r.0.commands[|s.commands|])
      && IdOf(r.0.commands[|s.commands|]) == Some(id)
      && r.0.commands[|s.commands|].entries.Keys == command.entries.Keys + {"id"}
      && (forall k :: k in command.entries && k != "id" ==> r.0.commands[|s.commands|].entries[k] == command.entries[k])
      && r.0.responses.Keys == s.responses.Keys + {id}
      && r.0.responses[id] == None
      && (forall k :: k in s.responses && k != id ==> r.0.responses[k] == s.responses[k])
      && r.1 == Reply(CommandQueuedBody(id), 200)
  {
    if !IsCommand(command) then
      (s, Reply(ErrorBody("Invalid command format"), 400))
    else
      var c := WithId(command, id);
      (Store(s.commands + [c], s.responses[id := None]), Reply(CommandQueuedBody(id), 200))
  }

  /** What `status.get("command", {}).get("id")` does: raise, or give a value (`Null` when absent). */
  datatype Lookup = Raises | Found(v: Value)

  /**
   * `status.get("command", {}).get("id")`: `.get` raises AttributeError on
   * anything but a dict, a missing `command` reads as `{}`, a missing `id`
   * as `None`.
   */
  function CommandIdOf(status: Value): (r: Lookup)
    ensures r.Found? <==> status.Dict? && ("command" in status.entries ==> status.entries["command"].Dict?)
    ensures r.Found? && "command" in status.entries && "id" in status.entries["command"].entries ==>
      r.v == status.entries["command"].entries["id"]
    ensures r.Found? && !("command" in status.entries && "id" in status.entries["command"].entries) ==> r.v == Null
  {
    if !status.Dict? then Raises
    else
      var inner := if "command" in status.entries then status.entries["command"] else Dict(map[]);
      if !inner.Dict? then Raises
      else if "id" in inner.entries then Found(inner.entries["id"])
      else Found(Null)
  }

  /** The registered id a status update names, when it names one. */
  predicate Names(s: Store, status: Value, id: string)
  {
    CommandIdOf(status) == Found(Str(id)) && id != "" && id in s.responses
  }

  /**
   * `update_status`: a falsy id is refused with 400, an id that is not a
   * registered key with 404, and a status that makes `.get` or hashing raise
   * with 500; none of these changes anything. A registered id gets the whole
   * status as its response, replacing whatever was stored, and nothing else
   * changes.
   */
  function Update(s: Store, status: Value): (r: (Store, Reply))
    ensures r.1.code == 200 <==> exists id :: Names(s, status, id)
    ensures r.1.code != 200 ==> r.0 == s
    ensures r.1.code == 400 <==> CommandIdOf(status).Found? && !Truthy(CommandIdOf(status).v)
    ensures r.1.code == 400 ==> r.1.body == ErrorBody("Invalid status update format")
    ensures r.1.code == 404 <==>
      && CommandIdOf(status).Found? && Truthy(CommandIdOf(status).v) && Hashable(CommandIdOf(status).v)
      && !(CommandIdOf(status).v.Str? && CommandIdOf(status).v.s in s.responses)
    ensures r.1.code == 404 ==> r.1.body == ErrorBody("Command ID not found")
    ensures r.1.code == 500 <==>
      || CommandIdOf(status).Raises?
      || (CommandIdOf(status).Found? && Truthy(CommandIdOf(status).v) && !Hashable(CommandIdOf(status).v))
    ensures r.1.code == 500 ==> r.1 == InternalError
    ensures r.1.code in {200, 400, 404, 500}
    ensures forall id :: Names(s, status, id) ==>
      && r.1 == Reply(StatusBody("received"), 200)
      && r.0.commands == s.commands
      && r.0.responses.Keys == s.responses.Keys
      && r.0.responses[id] == Some(status)
      && (forall k :: k in s.responses && k != id ==> r.0.responses[k] == s.responses[k])
  {
    match CommandIdOf(status)
    case Raises => (s, InternalError)
    case Found(v) =>
      if !Truthy(v) then (s, Reply(ErrorBody("Invalid status update format"), 400))
      else if !Hashable(v) then (s, InternalError)
      else if !(v.Str? && v.s in s.responses) then (s, Reply(ErrorBody("Command ID not found"), 404))
      else
        assert Names(s, status, v.s);
        (Store(s.commands, s.responses[v.s := Some(status)]), Reply(StatusBody("received"), 200))
  }

  /**
   * `get_response`: 200 with the stored status exactly when one has been
   * reported for `id`; 404 both for an id never issued and for one that is
   * registered but still waiting.
   */
  function Read(s: Store, id: string): (r: Reply)
    ensures r.code == 200 <==> id in s.responses && s.responses[id].Some?
    ensures r.code == 200 ==> r.body == s.responses[id].value
    ensures r.code != 200 ==> r == Reply(ErrorBody("Response not available yet"), 404)
  {
    if id in s.responses && s.responses[id].Some? then Reply(s.responses[id].value, 200)
    else Reply(ErrorBody("Response not available yet"), 404)
  }

  /** One call on the queue, with the fresh id an enqueue receives. */
  datatype Op = EnqueueOp(command: Value, id: string) | DrainOp | UpdateOp(status: Value) | ReadOp(key: string)

  /** The store after one call. */
  function Step(s: Store, op: Op): Store
  {
    match op
    case EnqueueOp(c, id) => Enqueue(s, c, id).0
    case DrainOp => Drain(s).1
    case UpdateOp(status) => Update(s, status).0
    case ReadOp(_) => s
  }

  /** The store after a sequence of calls, first call first. */
  function Run(s: Store, ops: seq<Op>): Store
    decreases |ops|
  {
    if ops == [] then s else Run(Step(s, ops[0]), ops[1..])
  }

  /** Everything the drains in `ops` hand out, batch after batch. */
  function Delivered(s: Store, ops: seq<Op>): seq<Value>
    decreases |ops|
  {
    if ops == [] then []
    else HandedOut(s, ops[0]) + Delivered(Step(s, ops[0]), ops[1..])
  }

  /** The commands the enqueues in `ops` accept, as they are queued. */
  function Accepted(ops: seq<Op>): seq<Value>
    decreases |ops|
  {
    if ops == [] then []
    else Admitted(ops[0]) + Accepted(ops[1..])
  }

  /** What one call hands out: the batch of a drain, nothing otherwise. */
  function HandedOut(s: Store, op: Op): seq<Value>
  {
    if op.DrainOp? then Drain(s).0 else []
  }

  /** What one call adds to the queue: the tagged command of an accepted enqueue, nothing otherwise. */
  function Admitted(op: Op): seq<Value>
  {
    if op.EnqueueOp? && IsCommand(op.command) then [WithId(op.command, op.id)] else []
  }

  /** One call loses nothing: what it hands out, then what is pending after it, is what was pending, then what it admits. */
  lemma StepConservation(s: Store, op: Op)
    ensures HandedOut(s, op) + Step(s, op).commands == s.commands + Admitted(op)
  {
  }

  /** Every enqueue in `ops` receives an id not yet registered at that point. */
  predicate FreshIds(s: Store, ops: seq<Op>)
    decreases |ops|
  {
    ops == [] || ((ops[0].EnqueueOp? ==> ops[0].id !in s.responses) && FreshIds(Step(s, ops[0]), ops[1..]))
  }

  /** Enqueue with an unregistered id keeps the invariant. */
  lemma EnqueueConsistent(s: Store, command: Value, id: string)
    requires Consistent(s) && id !in s.responses
    ensures Consistent(Enqueue(s, command, id).0)
  {
  }

  /** Every call keeps the invariant, given a fresh id for an enqueue. */
  lemma StepConsistent(s: Store, op: Op)
    requires Consistent(s) && (op.EnqueueOp? ==> op.id !in s.responses)
    ensures Consistent(Step(s, op))
  {
  }

  /** Any sequence of calls with fresh ids keeps the invariant. */
  lemma {:induction false} RunConsistent(s: Store, ops: seq<Op>)
    requires Consistent(s) && FreshIds(s, ops)
    ensures Consistent(Run(s, ops))
    decreases |ops|
  {
    if ops != [] {
      StepConsistent(s, ops[0]);
      RunConsistent(Step(s, ops[0]), ops[1..]);
    }
  }

  /** No call removes a key from the response table. */
  lemma StepKeepsKeys(s: Store, op: Op)
    ensures s.responses.Keys <= Step(s, op).responses.Keys
  {
  }

  /** Once an id is registered it stays registered, whatever calls follow. */
  lemma {:induction false} RunKeepsKeys(s: Store, ops: seq<Op>)
    ensures s.responses.Keys <= Run(s, ops).responses.Keys
    decreases |ops|
  {
    if ops != [] {
      StepKeepsKeys(s, ops[0]);
      RunKeepsKeys(Step(s, ops[0]), ops[1..]);
    }
  }

  /**
   * Nothing is lost and nothing is handed out twice: what the drains deliver,
   * followed by what is still pending, is exactly what was pending at the
   * start followed by every accepted command, in arrival order.
   */
  lemma {:induction false} Conservation(s: Store, ops: seq<Op>)
    ensures Delivered(s, ops) + Run(s, ops).commands == s.commands + Accepted(ops)
    decreases |ops|
  {
    if ops != [] {
      var s1 := Step(s, ops[0]);
      var rest := ops[1..];
      var out, inn := HandedOut(s, ops[0]), Admitted(ops[0]);
      var later, pending, accepted := Delivered(s1, rest), Run(s1, rest).commands, Accepted(rest);
      assert Delivered(s, ops) == out + later;
      assert Run(s, ops).commands == pending;
      assert Accepted(ops) == inn + accepted;
      Conservation(s1, rest);
      StepConservation(s, ops[0]);
      Regroup(out, later, pending, s1.commands, accepted, s.commands, inn);
    }
  }

  /** If `b + c == d + e` and `a + d == f + g`, then `(a + b) + c == f + (g + e)`. */
  lemma Regroup(a: seq<Value>, b: seq<Value>, c: seq<Value>, d: seq<Value>, e: seq<Value>, f: seq<Value>, g: seq<Value>)
    requires b + c == d + e && a + d == f + g
    ensures (a + b) + c == f + (g + e)
  {
    calc {
      (a + b) + c;
      a + (b + c);
      a + (d + e);
      (a + d) + e;
      (f + g) + e;
    }
  }

  /**
   * The commands accepted under fresh ids carry distinct ids, none of them
   * registered before the calls began.
   */
  lemma {:induction false} AcceptedFresh(s: Store, ops: seq<Op>)
    requires FreshIds(s, ops)
    ensures DistinctIds(Accepted(ops))
    ensures forall i :: 0 <= i < |Accepted(ops)| ==> IdOf(Accepted(ops)[i]).Some? && IdOf(Accepted(ops)[i]).value !in s.responses
    decreases |ops|
  {
    if ops != [] {
      var s1 := Step(s, ops[0]);
      var rest := ops[1..];
      AcceptedFresh(s1, rest);
      StepKeepsKeys(s, ops[0]);
      if ops[0].EnqueueOp? && IsCommand(ops[0].command) {
        var t := WithId(ops[0].command, ops[0].id);
        var a := Accepted(ops);
        assert a == [t] + Accepted(rest);
        assert IdOf(t) == Some(ops[0].id);
        assert ops[0].id in s1.responses;
        forall i, j | 0 <= i < j < |a| ensures IdOf(a[i]) != IdOf(a[j]) {
          assert a[j] == Accepted(rest)[j - 1];
          if i > 0 {
            assert a[i] == Accepted(rest)[i - 1];
          }
        }
      } else {
        assert Accepted(ops) == Accepted(rest);
      }
    }
  }

  /**
   * At-most-once delivery: with a fresh id for every enqueue, no two
   * commands handed out by the drains of a run, in the same batch or in
   * different ones, carry the same id.
   */
  lemma AtMostOnce(s: Store, ops: seq<Op>)
    requires Consistent(s) && FreshIds(s, ops)
    ensures DistinctIds(Delivered(s, ops))
  {
    AcceptedFresh(s, ops);
    DistinctJoin(s.commands, Accepted(ops), s.responses.Keys);
    Conservation(s, ops);
    var all := s.commands + Accepted(ops);
    var d := Delivered(s, ops);
    assert d == all[..|d|];
  }

  /** Two id-distinct lists, one inside `keys` and one outside it, join into an id-distinct list. */
  lemma DistinctJoin(a: seq<Value>, b: seq<Value>, keys: set<string>)
    requires DistinctIds(a) && DistinctIds(b)
    requires forall i :: 0 <= i < |a| ==> IdOf(a[i]).Some? && IdOf(a[i]).value in keys
    requires forall i :: 0 <= i < |b| ==> IdOf(b[i]).Some? && IdOf(b[i]).value !in keys
    ensures DistinctIds(a + b)
  {
  }

  /**
   * The relay's round trip: a command is enqueued under `id` and reads as
   * pending; after any further calls (drains by the worker, other commands,
   * other updates) a status naming `id` is accepted with 200, and reading
   * `id` then returns that status with 200.
   */
  lemma RoundTrip(s: Store, command: Value, id: string, ops: seq<Op>, status: Value)
    requires IsCommand(command) && id !in s.responses && id != ""
    requires CommandIdOf(status) == Found(Str(id))
    ensures Read(Enqueue(s, command, id).0, id) == Reply(ErrorBody("Response not available yet"), 404)
    ensures Update(Run(Enqueue(s, command, id).0, ops), status).1.code == 200
    ensures Read(Update(Run(Enqueue(s, command, id).0, ops), status).0, id) == Reply(status, 200)
  {
    var s1 := Enqueue(s, command, id).0;
    RunKeepsKeys(s1, ops);
    assert Names(Run(s1, ops), status, id);
  }

  class CommandQueue {
    var commands: seq<Value>
    var responses: map<string, Option<Value>>

    /** The fields as a `Store`. */
    function State(): Store
      reads this
    {
      Store(commands, responses)
    }

    predicate Valid()
      reads this
    {
      Consistent(State())
    }

    constructor ()
      ensures Valid() && commands == [] && responses == map[]
    {
      commands := [];
      responses := map[];
    }

    /** Hands out and clears the pending commands, as `Drain` says. */
    method GetCommands() returns (batch: seq<Value>)
      requires Valid()
      modifies this
      ensures Valid()
      ensures batch == old(commands) && commands == [] && responses == old(responses)
      ensures (batch, State()) == Drain(old(State()))
    {
      batch := commands;
      commands := [];
    }

    /** Validates and queues a command under `freshId`, as `Enqueue` says. */
    method EnqueueCommand(command: Value, freshId: string) returns (reply: Reply)
      requires Valid() && freshId !in responses
      modifies this
      ensures Valid()
      ensures (State(), reply) == Enqueue(old(State()), command, freshId)
    {
      EnqueueConsistent(State(), command, freshId);
      if !IsCommand(command) {
        return Reply(ErrorBody("Invalid command format"), 400);
      }
      var tagged := WithId(command, freshId);
      commands := commands + [tagged];
      responses := responses[freshId := None];
      reply := Reply(CommandQueuedBody(freshId), 200);
    }

    /** Records a worker's status report, as `Update` says. */
    method UpdateStatus(status: Value) returns (reply: Reply)
      requires Valid()
      modifies this
      ensures Valid()
      ensures (State(), reply) == Update(old(State()), status)
    {
      var lookup := CommandIdOf(status);
      if lookup.Raises? {
        return InternalError;
      }
      var commandId := lookup.v;
      if !Truthy(commandId) {
        return Reply(ErrorBody("Invalid status update format"), 400);
      }
      if !Hashable(commandId) {
        return InternalError;
      }
      if !commandId.Str? || commandId.s !in responses {
        return Reply(ErrorBody("Command ID not found"), 404);
      }
      responses := responses[commandId.s := Some(status)];
      reply := Reply(StatusBody("received"), 200);
    }

    /** Reads the response stored for `commandId` without changing anything, as `Read` says. */
    method GetResponse(commandId: string) returns (reply: Reply)
      ensures reply == Read(State(), commandId)
    {
      var response := if commandId in responses then responses[commandId] else None;
      if response.Some? {
        return Reply(response.value, 200);
      }
      reply := Reply(ErrorBody("Response not available yet"), 404);
    }
  }
}
