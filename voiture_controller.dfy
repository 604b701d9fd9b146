/** The car endpoints under `/api/voitures`. They read and write the car
    table and read the owner table. */
module VoitureApi {
  import opened Wrappers
  import opened Entities
  import opened Persistence
  import opened ProprietaireApi

  const OwnerRequiredMessage: string := "Un propriétaire valide est requis."
  const OwnerNotFoundMessage: string := "Propriétaire introuvable."

  /** A valid table of cars whose primary key is the car's `id`. */
  ghost predicate IsVoitureTable(r: CrudRepository<Voiture>)
    reads r
  {
    && r.Valid()
    && (forall v: Voiture :: r.idOf(v) == v.id)
    && (forall v: Voiture, n :: r.withId(v, n) == v.(id := n))
  }

  /** Referential integrity: every stored car has an owner, and that owner's
      id is a key of the owner table. */
  predicate OwnersResolve(cars: map<int, Voiture>, owners: map<int, Proprietaire>)
  {
    forall k :: k in cars ==>
      cars[k].proprietaire.Some? && cars[k].proprietaire.value.id in owners
  }

  /** The owner reference a car request carries that passes the first check
      of `createVoiture`: present, with a positive id. */
  predicate HasValidOwnerReference(v: Voiture)
  {
    v.proprietaire.Some? && v.proprietaire.value.id > 0
  }

  /** Overwriting the car stored under `id` with `body` keeps referential
      integrity exactly when the body's owner reference resolves: an update
      that does not check the owner can break it. */
  lemma UpdateKeepsIntegrityIff(cars: map<int, Voiture>, owners: map<int, Proprietaire>,
                                id: int, body: Voiture)
    requires OwnersResolve(cars, owners) && id in cars
    ensures OwnersResolve(cars[id := body.(id := id)], owners)
        <==> body.proprietaire.Some? && body.proprietaire.value.id in owners
  {
    var updated := cars[id := body.(id := id)];
    if OwnersResolve(updated, owners) {
      assert updated[id] == body.(id := id);
    }
  }

  /** A state with referential integrity, an existing car and a request body
      that `updateVoiture` accepts but whose owner reference is absent: the
      update leaves a car whose owner does not resolve. */
  lemma UpdateCanBreakIntegrity()
    ensures exists cars: map<int, Voiture>, owners: map<int, Proprietaire>, body: Voiture ::
              && OwnersResolve(cars, owners)
              && 1 in cars
              && !OwnersResolve(cars[1 := body.(id := 1)], owners)
  {
    var owner := Proprietaire(1, "Ali", "Hassan");
    var car := Voiture(1, "Toyota", "Corolla", "Grise", "A-1-9090", 2018, 95000, Some(owner));
    var cars: map<int, Voiture> := map[1 := car];
    var owners: map<int, Proprietaire> := map[1 := owner];
    var body := car.(proprietaire := None);
    var updated := cars[1 := body.(id := 1)];
    assert updated[1].proprietaire.None?;
    assert OwnersResolve(cars, owners) && 1 in cars && !OwnersResolve(cars[1 := body.(id := 1)], owners);
  }

  class VoitureController {
    const voitureRepository: CrudRepository<Voiture>
    const proprietaireRepository: CrudRepository<Proprietaire>

    ghost predicate Valid()
      reads this, voitureRepository, proprietaireRepository
    {
      && IsVoitureTable(voitureRepository)
      && IsProprietaireTable(proprietaireRepository)
      && voitureRepository as object != proprietaireRepository as object
    }

    constructor (voitureRepository: CrudRepository<Voiture>,
                 proprietaireRepository: CrudRepository<Proprietaire>)
      requires IsVoitureTable(voitureRepository)
      requires IsProprietaireTable(proprietaireRepository)
      ensures Valid()
      ensures this.voitureRepository == voitureRepository
      ensures this.proprietaireRepository == proprietaireRepository
    {
      this.voitureRepository := voitureRepository;
      this.proprietaireRepository := proprietaireRepository;
    }

    /** `GET /api/voitures`: every stored car, each once, and nothing else;
        the table is only read. */
    method GetAllVoitures() returns (all: seq<Voiture>)
      requires Valid()
      ensures forall v :: v in all <==> v in voitureRepository.store.Values
      ensures forall i, j :: 0 <= i < j < |all| ==> all[i].id != all[j].id
    {
      all := voitureRepository.FindAll();
    }

    /** `GET /api/voitures/{id}`: 200 with the stored car exactly when `id`
        is a key, 404 otherwise. */
    method GetVoitureById(id: int) returns (response: Response<Voiture>)
      requires Valid()
      ensures response.Ok? <==> id in voitureRepository.store
      ensures response.Ok? ==> response.body == voitureRepository.store[id]
      ensures !response.Ok? ==> response == NotFound
    {
      var voiture := voitureRepository.FindById(id);
      if voiture.Some? {
        response := Ok(voiture.value);
      } else {
        response := NotFound;
      }
    }

    /** `POST /api/voitures`. A missing owner reference or one whose id is not
        positive is refused with the first message, an id that is not a key
        of the owner table with the second; neither touches a table.
        Otherwise the request's owner is replaced by the stored owner, the
        car is saved (overwriting the car with the same id if there is one,
        else under a fresh key) and returned with 201. Referential integrity
        is preserved. */
    method CreateVoiture(voiture: Voiture) returns (response: Response<Voiture>)
      requires Valid()
      modifies voitureRepository
      ensures Valid()
      ensures !HasValidOwnerReference(voiture) ==>
                response == BadRequest(OwnerRequiredMessage) && unchanged(voitureRepository)
      ensures HasValidOwnerReference(voiture)
              && voiture.proprietaire.value.id !in proprietaireRepository.store ==>
                response == BadRequest(OwnerNotFoundMessage) && unchanged(voitureRepository)
      ensures HasValidOwnerReference(voiture)
              && voiture.proprietaire.value.id in proprietaireRepository.store ==>
                var resolved := voiture.(proprietaire :=
                                  Some(proprietaireRepository.store[voiture.proprietaire.value.id]));
                && response.Created?
                && response.body == resolved.(id := response.body.id)
                && voitureRepository.store
                     == old(voitureRepository.store)[response.body.id := response.body]
                && (voiture.id in old(voitureRepository.store) ==> response.body.id == voiture.id)
                && (voiture.id !in old(voitureRepository.store) ==>
                      response.body.id !in old(voitureRepository.store))
      ensures OwnersResolve(old(voitureRepository.store), proprietaireRepository.store) ==>
                OwnersResolve(voitureRepository.store, proprietaireRepository.store)
    {
      if voiture.proprietaire.None? || voiture.proprietaire.value.id <= 0 {
        return BadRequest(OwnerRequiredMessage);
      }
      var proprietaire := proprietaireRepository.FindById(voiture.proprietaire.value.id);
      if proprietaire.None? {
        return BadRequest(OwnerNotFoundMessage);
      }
      var resolved := voiture.(proprietaire := Some(proprietaire.value));
      var saved := voitureRepository.Save(resolved);
      response := Created(saved);
    }

    /** `PUT /api/voitures/{id}`: 404 and no change when `id` is not a key;
        otherwise the body, with its id set to `id`, overwrites the stored car
        and is returned with 200. The owner reference is not checked (see
        UpdateKeepsIntegrityIff). */
    method UpdateVoiture(id: int, voiture: Voiture) returns (response: Response<Voiture>)
      requires Valid()
      modifies voitureRepository
      ensures Valid()
      ensures id !in old(voitureRepository.store) ==>
                response == NotFound && unchanged(voitureRepository)
      ensures id in old(voitureRepository.store) ==>
                && response == Ok(voiture.(id := id))
                && voitureRepository.store == old(voitureRepository.store)[id := voiture.(id := id)]
    {
      var present := voitureRepository.ExistsById(id);
      if !present {
        return NotFound;
      }
      var updated := voitureRepository.Save(voiture.(id := id));
      response := Ok(updated);
    }

    /** `DELETE /api/voitures/{id}`: 404 and no change when `id` is not a
        key; otherwise exactly that key is removed, every other car stays as
        it was, and the answer is 204. Referential integrity is preserved. */
    method DeleteVoiture(id: int) returns (response: Response<Voiture>)
      requires Valid()
      modifies voitureRepository
      ensures Valid()
      ensures id !in old(voitureRepository.store) ==>
                response == NotFound && unchanged(voitureRepository)
      ensures id in old(voitureRepository.store) ==>
                && response == NoContent
                && voitureRepository.store == old(voitureRepository.store) - {id}
      ensures OwnersResolve(old(voitureRepository.store), proprietaireRepository.store) ==>
                OwnersResolve(voitureRepository.store, proprietaireRepository.store)
    {
      var present := voitureRepository.ExistsById(id);
      if !present {
        return NotFound;
      }
      voitureRepository.DeleteById(id);
      response := NoContent;
    }
  }

}
