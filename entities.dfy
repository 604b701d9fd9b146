/** The two entities of the car registry and the HTTP responses the
    controllers build from them. */
module Entities {
  import opened Wrappers

  /** An owner (a `Proprietaire`): a generated id, a surname and a first
      name. The list of owned cars is derived by the database and is not
      stored with the owner. */
  datatype Proprietaire = Proprietaire(id: int, nom: string, prenom: string)

  /** A car (a `Voiture`). The owner reference is a nullable object in the
      request body, hence an `Option`. */
  datatype Voiture = Voiture(
    id: int,
    marque: string,
    modele: string,
    couleur: string,
    immatricule: string,
    annee: int,
    prix: int,
    proprietaire: Option<Proprietaire>)

  /** The `ResponseEntity` values the controllers return: 200 with a body,
      201 with a body, 400 with a plain-text message, 404 and 204. */
  datatype Response<+T> =
    | Ok(body: T)
    | Created(body: T)
    | BadRequest(message: string)
    | NotFound
    | NoContent

  /** How a request sent with `axios` settled, as its `then`/`catch`
      callbacks see it: resolved (with `response.data != null` or not), or
      rejected. */
  datatype AxiosOutcome = Resolved(hasData: bool) | Rejected

}
