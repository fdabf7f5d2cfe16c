/**
 * `RequestQueue`: a list of request dicts, each tagged with a fresh `uuid`.
 * `get` reads a copy; `clear(uuid)` removes the requests carrying that
 * uuid (404 when none does), and `clear()` with no uuid, or a falsy one,
 * empties the list. Each locked body is one atomic step.
 */
module RequestQueues {
  import opened Wrappers
  import opened PyValues
  import opened Uuids

  /** Python truthiness of the optional `uuid` argument: `None` and `""` are false. */
  predicate Given(uuid: Option<string>)
  {
    uuid.Some? && uuid.value != ""
  }

  /** `req.get("uuid") == uuid` for a request dict. */
  predicate Matches(req: Value, uuid: string)
  {
    UuidOf(req) == Some(uuid)
  }

  /**
   * `[req for req in requests if req.get("uuid") != uuid]`: never longer,
   * keeps no match, and keeps the full length exactly when nothing matched.
   */
  function Without(requests: seq<Value>, uuid: string): (r: seq<Value>)
    ensures |r| <= |requests|
    ensures forall i :: 0 <= i < |r| ==> !Matches(r[i], uuid)
    ensures |r| == |requests| <==> forall i :: 0 <= i < |requests| ==> !Matches(requests[i], uuid)
  {
    if requests == [] then []
    else
      var rest := Without(requests[1..], uuid);
      assert forall i :: 1 <= i < |requests| ==> requests[i] == requests[1..][i - 1];
      if Matches(requests[0], uuid) then rest else [requests[0]] + rest
  }

  /** Filtering a concatenation filters each part: the kept requests stay in their relative order. */
  lemma {:induction false} WithoutAppend(a: seq<Value>, b: seq<Value>, uuid: string)
    ensures Without(a + b, uuid) == Without(a, uuid) + Without(b, uuid)
  {
    if a == [] {
      assert a + b == b;
    } else {
      assert (a + b)[1..] == a[1..] + b;
      WithoutAppend(a[1..], b, uuid);
    }
  }

  /**
   * Exactly the matching requests go: a matching request occurs zero times
   * in the result, and every other request as often as before.
   */
  lemma {:induction false} WithoutCounts(requests: seq<Value>, uuid: string, x: Value)
    ensures multiset(Without(requests, uuid))[x] == if Matches(x, uuid) then 0 else multiset(requests)[x]
  {
    if requests != [] {
      WithoutCounts(requests[1..], uuid, x);
      assert requests == [requests[0]] + requests[1..];
    }
  }

  /** When no request matches, the filtered list is the list itself. */
  lemma {:induction false} WithoutNoMatch(requests: seq<Value>, uuid: string)
    requires forall i :: 0 <= i < |requests| ==> !Matches(requests[i], uuid)
    ensures Without(requests, uuid) == requests
  {
    if requests != [] {
      assert forall i :: 0 <= i < |requests| - 1 ==> requests[1..][i] == requests[i + 1];
      WithoutNoMatch(requests[1..], uuid);
    }
  }

  /** With distinct uuids at most one request matches, so a removal shortens the list by exactly one. */
  lemma {:induction false} WithoutUnique(requests: seq<Value>, uuid: string)
    requires UniquelyTagged(requests)
    ensures |Without(requests, uuid)| >= |requests| - 1
    ensures UniquelyTagged(Without(requests, uuid))
  {
    if requests != [] {
      var tail := requests[1..];
      assert forall i :: 0 <= i < |tail| ==> tail[i] == requests[i + 1];
      WithoutUnique(tail, uuid);
      if Matches(requests[0], uuid) {
        forall i | 0 <= i < |tail| ensures !Matches(tail[i], uuid) {
          assert UuidOf(requests[0]) != UuidOf(requests[i + 1]);
        }
        WithoutNoMatch(tail, uuid);
      } else {
        var rest := Without(tail, uuid);
        var r := [requests[0]] + rest;
        forall k | 0 <= k < |rest| ensures UuidOf(requests[0]) != UuidOf(rest[k]) {
          WithoutCounts(tail, uuid, rest[k]);
          assert rest[k] in multiset(rest);
          assert rest[k] in multiset(tail);
          var j :| 0 <= j < |tail| && tail[j] == rest[k];
          assert UuidOf(requests[0]) != UuidOf(requests[j + 1]);
        }
        forall i, j | 0 <= i < j < |r| ensures UuidOf(r[i]) != UuidOf(r[j]) {
          if i > 0 {
            assert r[i] == rest[i - 1] && r[j] == rest[j - 1];
          }
        }
      }
    }
  }

  /** `{"status": "removed", "uuid": uuid}` */
  function RemovedBody(uuid: string): Value
  {
    Dict(map["status" := Str("removed"), "uuid" := Str(uuid)])
  }

  class RequestQueue {
    var requests: seq<Value>

    /** Every queued request is a dict with its own uuid. */
    predicate Valid()
      reads this
    {
      UniquelyTagged(requests)
    }

    constructor ()
      ensures Valid() && requests == []
    {
      requests := [];
    }

    /**
     * A dict is tagged with `freshId` and appended at the tail; anything else
     * is answered 400 and the list is left as it was.
     */
    method Add(request: Value, freshId: string) returns (reply: Reply)
      requires Valid() && Unused(requests, freshId)
      modifies this
      ensures Valid()
      ensures reply.code == 200 <==> request.Dict?
      ensures !request.Dict? ==> requests == old(requests) && reply == Reply(ErrorBody("Invalid request data"), 400)
      ensures request.Dict? ==>
        && |requests| == |old(requests)| + 1
        && requests[..|old(requests)|] == old(requests)
        && requests[|old(requests)|] == Tag(request, freshId)
        && UuidOf(requests[|old(requests)|]) == Some(freshId)
        && reply == Reply(QueuedBody(freshId), 200)
    {
      if !request.Dict? {
        return Reply(ErrorBody("Invalid request data"), 400);
      }
      var tagged := Tag(request, freshId);
      TagKeepsUnique(requests, request, freshId);
      requests := requests + [tagged];
      reply := Reply(QueuedBody(freshId), 200);
    }

    /** A copy of the requests in order, with status 200; nothing is removed. */
    method Get() returns (items: seq<Value>, code: int)
      ensures items == requests && code == 200
    {
      items, code := requests, 200;
    }

    /**
     * With a truthy `uuid`: the requests carrying it are removed and the rest
     * keep their order; 200 if that removed any, otherwise 404 and the list
     * is unchanged. With no uuid or an empty one: the list is emptied.
     */
    method Clear(uuid: Option<string>) returns (reply: Reply)
      requires Valid()
      modifies this
      ensures Valid()
      ensures !Given(uuid) ==> requests == [] && reply == Reply(StatusBody("cleared"), 200)
      ensures Given(uuid) ==> requests == Without(old(requests), uuid.value)
      ensures Given(uuid) ==>
        (reply.code == 200 <==> exists i :: 0 <= i < |old(requests)| && Matches(old(requests)[i], uuid.value))
      ensures Given(uuid) && reply.code == 200 ==>
        |requests| == |old(requests)| - 1 && reply == Reply(RemovedBody(uuid.value), 200)
      ensures Given(uuid) && reply.code != 200 ==>
        requests == old(requests) && reply == Reply(ErrorBody("UUID not found"), 404)
    {
      if Given(uuid) {
        var initialLength := |requests|;
        WithoutUnique(requests, uuid.value);
        if forall i :: 0 <= i < |requests| ==> !Matches(requests[i], uuid.value) {
          WithoutNoMatch(requests, uuid.value);
        }
        requests := Without(requests, uuid.value);
        if |requests| == initialLength {
          reply := Reply(ErrorBody("UUID not found"), 404);
        } else {
          reply := Reply(RemovedBody(uuid.value), 200);
        }
      } else {
        requests := [];
        reply := Reply(StatusBody("cleared"), 200);
      }
    }
  }
}
