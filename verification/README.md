# Relay command stores, modelled in Dafny

The relay gateway keeps its work in memory, in lock-guarded stores. A remote
caller enqueues a command for the presentation machine. A worker on that
machine polls the gateway, takes the pending commands, runs them and posts a
status back under the command's id. The caller then reads the status by that
id. This project models the three store designs the repository contains and
proves what each promises:

- `CommandQueue`, found in `server/main.py` and `app/modules/command_queue.py`
  with the same code (the second file's lines sit 4 earlier than the first's). It
  pairs a FIFO list of pending commands with a response table. The table maps
  each issued id to "no status yet" or to the last status reported. Module
  `CommandQueues` (`command_queue.dfy`) models both copies. Functions on an
  abstract `Store` specify the four operations, and lemmas about runs of
  calls state the invariant, conservation, at-most-once hand-out and the
  round trip. The class `CommandQueue` keeps the same two fields, updates
  them in place, and is proved to agree with those functions.
- `Queue` (`app/server/queue.py`), a list of uuid-tagged commands whose
  `fetch` returns a copy without removing anything. Module `Queues`
  (`queue.dfy`).
- `RequestQueue` (`app/server/RequestQueue.py`), a list of uuid-tagged
  requests with a non-destructive `get` and a `clear` that removes one uuid
  or everything. Module `RequestQueues` (`request_queue.dfy`).

Shared pieces: `PyValues` (`py_values.dfy`) holds the JSON-shaped Python
values a request body can carry, with Python truthiness, item assignment and
the `(body, status)` reply. `Uuids` (`uuids.dfy`) holds the uuid tagging
common to `Queue.add` and `RequestQueue.add`. `Wrappers` (`wrappers.dfy`)
holds Option and Result.

Modelling choices:
- Each `with self.lock:` body is one atomic step. Concurrency is not modelled.
- `uuid.uuid4()` becomes a `freshId` parameter. For `CommandQueue` it must not
  be a key of the response table yet. For `Queue` and `RequestQueue` no
  current entry may carry it.
- `update_status` answers 500 on some malformed bodies, and the model keeps
  those cases. A body that is not a dict, or whose `command` is not a dict,
  makes `.get` raise. An id that is a list or a dict makes `in
  self.responses` raise. The `try/except` turns each of these into
  `{"error": "Internal server error"}` with status 500, and nothing changes.
- `Queue.add` raises `TypeError` on a non-dict. The model returns that
  exception as a `Failure`, with the message naming the value's type.
- `get_response` answers 404 both for an id never issued and for an id
  still waiting for a status (server/main.py:119-126); the two cases are
  not told apart.
- `CommandQueue` has no operation that removes a single command; only
  `RequestQueue.clear(uuid)` removes one entry.
- `Queue.fetch` logs that it cleared the queue (app/server/queue.py:33-34),
  but it leaves the commands in place; the model follows the code.

## Model

| member | source | states |
|---|---|---|
| `PyValues.SetItem` | app/server/queue.py:80 | `d[key] = x`: the key maps to `x`, it is added if absent or overwritten if present, and every other entry is kept |
| `CommandQueues.Drain` | server/main.py:42-44 | the locked body of `get_commands` as a function on the store: the batch followed by what remains pending is exactly what was pending, nothing remains pending, and the response table is kept. Its properties are stated by the lemmas `Conservation` (nothing lost, duplicated or reordered over any run) and `AtMostOnce` (no id handed out twice) and by `CommandQueue.GetCommands` |
| `CommandQueues.Enqueue` | app/modules/command_queue.py:57-70 | status is 200 exactly when the input is a dict with `endpoint`. Otherwise it returns 400 "Invalid command format" and the store is unchanged. On success one command joins the tail with every earlier command kept. It carries `id` (a caller's `id` is overwritten) and every other field of the input. The keys of the response table gain exactly `id`, which maps to None. The reply is `{"status":"queued","command_id":id}`, 200 (same code at server/main.py:61-74) |
| `CommandQueues.CommandIdOf` | server/main.py:90 | `status.get("command", {}).get("id")` raises unless the status is a dict and any `command` in it is a dict. It returns the `id` when present and `None` when absent |
| `CommandQueues.Update` | app/modules/command_queue.py:86-98 | status is 200 exactly when the update names a registered, non-empty string id. A falsy id gives 400, exactly. An unregistered id gives 404. A status that makes `.get` or hashing raise gives 500. Every non-200 answer leaves the store unchanged. On 200 the whole status replaces whatever was stored for the id, commands and table keys stay as they were, and every other entry is kept (same code at server/main.py:90-102) |
| `CommandQueues.Read` | app/modules/command_queue.py:114-122 | 200 with the stored status exactly when one has been reported for the id. Otherwise 404 "Response not available yet", for an unknown id and for a pending one alike (same code at server/main.py:118-126) |
| `CommandQueues.EnqueueConsistent` | server/main.py:66-71 | enqueue with an unregistered id keeps the invariant. Every pending command is valid, has its id registered in the table, and no two share an id |
| `CommandQueues.StepConsistent` | server/main.py:43-99 | each of drain, enqueue (fresh id), update and read keeps that invariant |
| `CommandQueues.RunConsistent` | app/modules/command_queue.py:38-95 | any sequence of calls with fresh ids keeps that invariant |
| `CommandQueues.StepKeepsKeys` | app/modules/command_queue.py:67-95 | no single call removes a key from the response table |
| `CommandQueues.RunKeepsKeys` | server/main.py:69-99 | response-table keys never shrink across any sequence of calls |
| `CommandQueues.Conservation` | server/main.py:41-71 | over any run, the drained batches followed by the still-pending commands equal the initially pending commands followed by every accepted command, in arrival order. Nothing is lost, duplicated or reordered |
| `CommandQueues.AcceptedFresh` | app/modules/command_queue.py:62-67 | commands accepted under fresh ids carry pairwise distinct ids, none registered before the run |
| `CommandQueues.AtMostOnce` | server/main.py:42-44 | with fresh ids, no two commands handed out by the drains of a run, in one batch or across batches, share an id |
| `CommandQueues.RoundTrip` | server/main.py:69-123 | after enqueue under `id`, reading `id` gives 404 (pending). After any further calls, a status naming `id` is accepted with 200, and reading `id` then returns that status with 200 |
| `CommandQueues.CommandQueue.constructor` | server/main.py:26-32 | a new queue has no commands, an empty response table, and satisfies the invariant |
| `CommandQueues.CommandQueue.GetCommands` | server/main.py:34-49 | the batch is exactly the pending commands in arrival order; afterwards nothing is pending, the response table is untouched (so an immediate second call returns `[]`), and the invariant holds (same code at app/modules/command_queue.py:37-42) |
| `CommandQueues.CommandQueue.EnqueueCommand` | server/main.py:51-77 | the in-place enqueue changes fields and reply as `Enqueue` says, and keeps the invariant given a fresh id |
| `CommandQueues.CommandQueue.UpdateStatus` | server/main.py:79-105 | the in-place update changes fields and reply as `Update` says, and keeps the invariant |
| `CommandQueues.CommandQueue.GetResponse` | server/main.py:107-129 | read-only; answers as `Read` says on the current fields |
| `Uuids.TagKeepsUnique` | app/server/queue.py:79-83 | tagging a dict with an unused id gives it that uuid, and appending it keeps every uuid in the list distinct |
| `Queues.Queue.constructor` | app/server/queue.py:16-18 | a new queue is empty |
| `Queues.Queue.Fetch` | app/server/queue.py:20-38 | returns the commands in order and removes nothing, so repeated fetches return equal lists |
| `Queues.Queue.Clear` | app/server/queue.py:40-51 | the queue is empty afterwards, so clearing twice equals clearing once |
| `Queues.Queue.Add` | app/server/queue.py:53-91 | fails exactly on a non-dict. It raises `TypeError` with the message naming the type, and the queue is unchanged. A dict gets the fresh uuid and is appended at the tail. The length grows by one, earlier commands keep their order, and the reply is `{"status":"queued","uuid":id}`, 200. All uuids stay distinct |
| `RequestQueues.Without` | app/server/RequestQueue.py:47 | the comprehension keeps no request with that uuid and is never longer than its input. It keeps the full length exactly when no request matched |
| `RequestQueues.WithoutAppend` | app/server/RequestQueue.py:47 | filtering distributes over concatenation, so the kept requests stay in their original relative order |
| `RequestQueues.WithoutCounts` | app/server/RequestQueue.py:47 | a matching request occurs zero times in the result, and every other request occurs as often as before |
| `RequestQueues.WithoutNoMatch` | app/server/RequestQueue.py:47-51 | when nothing matches, the filtered list is the original list |
| `RequestQueues.WithoutUnique` | app/server/RequestQueue.py:45-54 | with distinct uuids the filter removes at most one request and keeps the uuids distinct |
| `RequestQueues.RequestQueue.constructor` | app/server/RequestQueue.py:7-9 | a new request queue is empty |
| `RequestQueues.RequestQueue.Add` | app/server/RequestQueue.py:11-28 | a non-dict gives 400 "Invalid request data" and no change. A dict gets the fresh uuid and is appended at the tail, earlier requests kept. The reply is `{"status":"queued","uuid":id}`, 200, and uuids stay distinct |
| `RequestQueues.RequestQueue.Get` | app/server/RequestQueue.py:30-40 | returns the requests in order with 200 and changes nothing |
| `RequestQueues.RequestQueue.Clear` | app/server/RequestQueue.py:42-62 | a falsy or absent uuid empties the list and gives `{"status":"cleared"}`, 200. A truthy uuid removes exactly the matching requests, keeping the others in order. The reply is 200 exactly when a request matched: `{"status":"removed","uuid":u}`, with the list one shorter. Otherwise it is 404 "UUID not found" and the list is unchanged |

## Left out

- Threads and `threading.Lock`: each locked body is treated as one atomic step. Interleavings of concurrent callers are not modelled.
- `uuid.uuid4()`: each operation receives the new id as a parameter. Randomness and the odds of a collision are not modelled.
- Logging calls, and the `except` branches that catch faults raised by logging or by the runtime. These are the 500 answers of `enqueue_command`, `get_response`, `Queue.add`, `RequestQueue.add/get/clear` and the `[]` fallbacks of `get_commands` and `fetch`. In this model nothing can raise there.
- Aliasing of the caller's dict: the source stores the caller's own dict object and writes the id into it. The model stores a value, so a later change the caller makes to that dict is not reflected in the queue. In particular, enqueuing the same dict object twice would leave both queued entries carrying the second id (app/modules/command_queue.py:63,66); `CommandQueues.DistinctIds` relies on value semantics here. The HTTP handler passes a freshly parsed body each time (app/modules/rest_api_server.py:75), so this does not arise through it.
- Floats and non-string dict keys in request bodies: JSON bodies with floats are outside `PyValues.Value`.
- The Flask and Socket.IO layers, the API-key check, argument parsing and the client-side poller and session code are not part of this model. They only call the stores.
