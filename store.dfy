/**
 * The persistent keyed store of src/app/js/main/store.ts: an nedb datastore of serialized
 * documents indexed by `_id`, read with `get` and upserted with `set`. The datastore is a map
 * from id to document held by a `Store` object; whether the datastore reports an error is an
 * input of each call. The source runs the deserializer inside the datastore's callback, so a
 * deserializer that throws escapes as an uncaught exception and the returned promise never
 * settles; the model gives such a read the rejection `Unreadable` instead.
 */
module Stores {
  import opened Wrappers
  import opened Text

  /** The ways a store call rejects. */
  datatype StoreError<+X> =
    | FindFailed(message: string)
    | UpdateFailed(message: string)
    | QueryFailed
    | Unreadable(error: X)

  /** The message `get` rejects with when the datastore reports an error. */
  function FindMessage(id: string): string {
    "Failed to find the entity with id " + id
  }

  /** The message `set` rejects with: the entity is a plain object and prints as `ObjectText`. */
  function UpdateMessage(): string {
    "Failed to update the entity " + ObjectText
  }

  /** An upsert keyed by `id`: at most one document per id, and a later write replaces the earlier one. */
  function Upsert<S>(docs: map<string, S>, id: string, doc: S): (r: map<string, S>)
    ensures id in r && r[id] == doc
    ensures r.Keys == docs.Keys + {id}
    ensures forall k :: k in docs && k != id ==> r[k] == docs[k]
  {
    docs[id := doc]
  }

  /** What a successful `findOne` by `_id` resolves to: `undefined` when no document has the id. */
  function Lookup<S, E, X>(docs: map<string, S>, id: string, deserializer: S -> Result<E, X>): Result<Option<E>, StoreError<X>> {
    if id !in docs then Success(None)
    else
      match deserializer(docs[id])
      case Success(e) => Success(Some(e))
      case Failure(x) => Failure(Unreadable(x))
  }

  /** Reading back what was just written yields the deserialized serialization of the entity. */
  lemma GetAfterSet<E, S, X>(docs: map<string, S>, id: string, doc: S, deserializer: S -> Result<E, X>)
    ensures deserializer(doc).Success? ==> Lookup(Upsert(docs, id, doc), id, deserializer) == Success(Some(deserializer(doc).value))
    ensures deserializer(doc).Failure? ==> Lookup(Upsert(docs, id, doc), id, deserializer) == Failure(Unreadable(deserializer(doc).error))
  {
  }

  /** Writing one id leaves what every other id reads unchanged. */
  lemma SetLeavesOthers<E, S, X>(docs: map<string, S>, id: string, doc: S, other: string, deserializer: S -> Result<E, X>)
    requires other != id
    ensures Lookup(Upsert(docs, id, doc), other, deserializer) == Lookup(docs, other, deserializer)
  {
  }

  /** Two writes to one id leave the second. */
  lemma SetOverwrites<S>(docs: map<string, S>, id: string, first: S, second: S)
    ensures Upsert(Upsert(docs, id, first), id, second) == Upsert(docs, id, second)
  {
  }

  /** An id never written reads as `undefined`, not as an error. */
  lemma GetMissing<E, S, X>(docs: map<string, S>, id: string, deserializer: S -> Result<E, X>)
    requires id !in docs
    ensures Lookup(docs, id, deserializer) == Success(None)
  {
  }

  /**
   * `Store<Id, Entity, Serialized>` with string ids: the datastore, the entity's id, and the
   * subclass's serializer and deserializer.
   */
  class Store<E, S, X> {
    var docs: map<string, S>
    const idOf: E -> string
    const serializer: E -> S
    const deserializer: S -> Result<E, X>

    /** A new store starts empty (the in-memory datastore; a file-backed one is left out). */
    constructor(idOf: E -> string, serializer: E -> S, deserializer: S -> Result<E, X>)
      ensures docs == map[]
      ensures this.idOf == idOf && this.serializer == serializer && this.deserializer == deserializer
    {
      docs := map[];
      this.idOf := idOf;
      this.serializer := serializer;
      this.deserializer := deserializer;
    }

    /** `get(id, deserializer = this.deserializer)`: `custom` is the optional argument. */
    method Get(id: string, custom: Option<S -> Result<E, X>>, failed: bool) returns (r: Result<Option<E>, StoreError<X>>)
      ensures failed ==> r == Failure(FindFailed(FindMessage(id)))
      ensures !failed ==> r == Lookup(docs, id, custom.GetOr(deserializer))
      ensures !failed && id !in docs ==> r == Success(None)
    {
      if failed {
        return Failure(FindFailed(FindMessage(id)));
      }
      var deserialize := custom.GetOr(deserializer);
      if id in docs {
        var e := deserialize(docs[id]);
        if e.Failure? {
          return Failure(Unreadable(e.error));
        }
        return Success(Some(e.value));
      }
      return Success(None);
    }

    /** `set(entity, serializer = this.serializer)`: an upsert keyed by the entity's id. */
    method Set(entity: E, custom: Option<E -> S>, failed: bool) returns (r: Result<(), StoreError<X>>)
      modifies this
      ensures failed ==> r == Failure(UpdateFailed(UpdateMessage())) && docs == old(docs)
      ensures !failed ==> r == Success(()) && docs == Upsert(old(docs), idOf(entity), custom.GetOr(serializer)(entity))
    {
      if failed {
        return Failure(UpdateFailed(UpdateMessage()));
      }
      var serialize := custom.GetOr(serializer);
      docs := Upsert(docs, idOf(entity), serialize(entity));
      return Success(());
    }

    /** `remove(id)`, which the synchronizer calls: taken to delete the document with that id. */
    method Remove(id: string)
      modifies this
      ensures docs == old(docs) - {id}
    {
      docs := docs - {id};
    }
  }
}
