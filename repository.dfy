/** Spring Data's `CrudRepository<T, Long>` as the controllers use it: a
    table of records keyed by a generated id. */
module Persistence {
  import opened Wrappers

  /** One table. `store` maps each primary key to the record saved under it;
      `nextId` is the next value of the identity column. `idOf` reads a
      record's id and `withId` sets it, the roles JPA's `@Id` mapping plays. */
  class CrudRepository<T(==,!new)> {
    var store: map<int, T>
    var nextId: int
    const idOf: T -> int
    const withId: (T, int) -> T

    /** Keys are positive and below `nextId`, and every record carries its
        own key as its id. */
    ghost predicate Valid()
      reads this
    {
      && 0 < nextId
      && (forall k :: k in store ==> 0 < k < nextId && idOf(store[k]) == k)
      && (forall e, n :: idOf(withId(e, n)) == n)
    }

    constructor (idOf: T -> int, withId: (T, int) -> T)
      requires forall e, n :: idOf(withId(e, n)) == n
      ensures Valid()
      ensures this.idOf == idOf && this.withId == withId
      ensures store == map[] && nextId == 1
    {
      this.idOf := idOf;
      this.withId := withId;
      store := map[];
      nextId := 1;
    }

    /** `existsById`. */
    method ExistsById(id: int) returns (b: bool)
      ensures b <==> id in store
    {
      b := id in store;
    }

    /** `findById`: the record under `id`, or nothing. */
    method FindById(id: int) returns (r: Option<T>)
      ensures r.Some? <==> id in store
      ensures r.Some? ==> r.value == store[id]
    {
      if id in store {
        r := Some(store[id]);
      } else {
        r := None;
      }
    }

    /** `findAll`: every stored record exactly once, in primary-key order
        (a scan of the identity column from 1 up to `nextId`). */
    method FindAll() returns (all: seq<T>)
      requires Valid()
      ensures forall e :: e in all <==> e in store.Values
      ensures forall i, j :: 0 <= i < j < |all| ==> idOf(all[i]) < idOf(all[j])
    {
      all := [];
      var k := 1;
      while k < nextId
        invariant 1 <= k <= nextId
        invariant forall e :: e in all ==> e in store.Values
        invariant forall j :: j in store && j < k ==> store[j] in all
        invariant forall i, j :: 0 <= i < j < |all| ==> idOf(all[i]) < idOf(all[j])
        invariant forall i :: 0 <= i < |all| ==> idOf(all[i]) < k
      {
        if k in store {
          all := all + [store[k]];
        }
        k := k + 1;
      }
    }

    /** `save`: a record whose id is already a key overwrites the record
        stored there; any other record is inserted under a freshly generated
        key, which becomes its id. Returns the record as stored. */
    method Save(entity: T) returns (saved: T)
      requires Valid()
      modifies this
      ensures Valid()
      ensures idOf(saved) in store && store[idOf(saved)] == saved
      ensures store == old(store)[idOf(saved) := saved]
      ensures idOf(entity) in old(store) ==> saved == entity && nextId == old(nextId)
      ensures idOf(entity) !in old(store) ==>
                saved == withId(entity, old(nextId)) && idOf(saved) !in old(store)
                && nextId == old(nextId) + 1
    {
      var id := idOf(entity);
      if id in store {
        saved := entity;
        store := store[id := entity];
      } else {
        saved := withId(entity, nextId);
        store := store[nextId := saved];
        nextId := nextId + 1;
      }
    }

    /** `deleteById`: removes the key; a missing key is left alone. */
    method DeleteById(id: int)
      requires Valid()
      modifies this
      ensures Valid()
      ensures store == old(store) - {id} && nextId == old(nextId)
    {
      store := store - {id};
    }
  }

}
