/**
 * Tagging with a fresh `uuid` key, shared by `Queue.add` and
 * `RequestQueue.add`: both write `entry["uuid"] = str(uuid.uuid4())`,
 * append the entry, and answer `{"status": "queued", "uuid": id}`.
 * `uuid.uuid4()` is not modelled; each add receives the id as a parameter
 * that no entry in the store carries yet.
 */
module Uuids {
  import opened Wrappers
  import opened PyValues

  /** The string under the `uuid` key of a dict entry, if it has one. */
  function UuidOf(v: Value): Option<string>
  {
    if v.Dict? && "uuid" in v.entries && v.entries["uuid"].Str? then Some(v.entries["uuid"].s) else None
  }

  /** `id` is not the uuid of any entry in `entries`. */
  predicate Unused(entries: seq<Value>, id: string)
  {
    forall i :: 0 <= i < |entries| ==> UuidOf(entries[i]) != Some(id)
  }

  /** Every entry is a dict tagged with a uuid, and no two entries share one. */
  predicate UniquelyTagged(entries: seq<Value>)
  {
    && (forall i :: 0 <= i < |entries| ==> UuidOf(entries[i]).Some?)
    && (forall i, j :: 0 <= i < j < |entries| ==> UuidOf(entries[i]) != UuidOf(entries[j]))
  }

  /** `entry["uuid"] = id` */
  function Tag(entry: Value, id: string): Value
    requires entry.Dict?
  {
    SetItem(entry, "uuid", Str(id))
  }

  /** `{"status": "queued", "uuid": id}` */
  function QueuedBody(id: string): Value
  {
    Dict(map["status" := Str("queued"), "uuid" := Str(id)])
  }

  /**
   * Appending a dict tagged with an unused id keeps all uuids distinct, and
   * the new entry is the one carrying that id.
   */
  lemma TagKeepsUnique(entries: seq<Value>, entry: Value, id: string)
    requires UniquelyTagged(entries) && Unused(entries, id) && entry.Dict?
    ensures UuidOf(Tag(entry, id)) == Some(id)
    ensures UniquelyTagged(entries + [Tag(entry, id)])
  {
  }
}
