/** The owner endpoints under `/api/proprietaires`. */
module ProprietaireApi {
  import opened Wrappers
  import opened Entities
  import opened Persistence

  /** A valid table of owners whose primary key is the owner's `id`. */
  ghost predicate IsProprietaireTable(r: CrudRepository<Proprietaire>)
    reads r
  {
    && r.Valid()
    && (forall p: Proprietaire :: r.idOf(p) == p.id)
    && (forall p: Proprietaire, n :: r.withId(p, n) == p.(id := n))
  }

  class ProprietaireController {
    const proprietaireRepository: CrudRepository<Proprietaire>

    ghost predicate Valid()
      reads this, proprietaireRepository
    {
      IsProprietaireTable(proprietaireRepository)
    }

    constructor (proprietaireRepository: CrudRepository<Proprietaire>)
      requires IsProprietaireTable(proprietaireRepository)
      ensures Valid() && this.proprietaireRepository == proprietaireRepository
    {
      this.proprietaireRepository := proprietaireRepository;
    }

    /** `GET /api/proprietaires`: every stored owner, each once, and nothing
        else; the table is only read. */
    method GetAllProprietaires() returns (all: seq<Proprietaire>)
      requires Valid()
      ensures forall p :: p in all <==> p in proprietaireRepository.store.Values
      ensures forall i, j :: 0 <= i < j < |all| ==> all[i].id != all[j].id
    {
      all := proprietaireRepository.FindAll();
    }

    /** `GET /api/proprietaires/{id}`: 200 with the stored owner, or 404. */
    method GetProprietaireById(id: int) returns (response: Response<Proprietaire>)
      requires Valid()
      ensures id in proprietaireRepository.store ==>
                response == Ok(proprietaireRepository.store[id])
      ensures id !in proprietaireRepository.store ==> response == NotFound
    {
      var proprietaire := proprietaireRepository.FindById(id);
      if proprietaire.Some? {
        response := Ok(proprietaire.value);
      } else {
        response := NotFound;
      }
    }

    /** `POST /api/proprietaires`: saves the owner and answers 201 with the
        saved owner, whose id is now a key of the table holding exactly that
        owner. Its names are the request's; its id is the request's when that
        id was already a key, and a fresh key otherwise. */
    method CreateProprietaire(proprietaire: Proprietaire) returns (response: Response<Proprietaire>)
      requires Valid()
      modifies proprietaireRepository
      ensures Valid()
      ensures response.Created?
      ensures response.body.nom == proprietaire.nom && response.body.prenom == proprietaire.prenom
      ensures response.body.id in proprietaireRepository.store
      ensures proprietaireRepository.store
                == old(proprietaireRepository.store)[response.body.id := response.body]
      ensures proprietaire.id in old(proprietaireRepository.store) ==> response.body == proprietaire
      ensures proprietaire.id !in old(proprietaireRepository.store) ==>
                response.body.id !in old(proprietaireRepository.store)
    {
      var saved := proprietaireRepository.Save(proprietaire);
      response := Created(saved);
    }
  }

}
