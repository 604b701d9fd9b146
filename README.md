# Car registry: a verified model of the controllers and the web client's list logic

This project models the core of a small car registry written as a Spring
Boot service with a React client. The service keeps two tables: owners
(`Proprietaire`: id, surname `nom`, first name `prenom`) and cars (`Voiture`:
id, make, model, colour, plate, year, price and one owner).
It exposes them through two REST controllers. The client loads the owners
into a car entry form and shows the cars in a table with a delete button.

The model is written in Dafny and has these parts:

- `Persistence.CrudRepository<T>` is Spring Data's `CrudRepository<T, Long>`.
  It is a class whose `store: map<int, T>` holds the records by primary key
  and whose `nextId` is the identity column's next value. Its methods are
  `ExistsById`, `FindById`, `FindAll`, `Save` and `DeleteById`. `Save`
  overwrites the record stored under an id that is already a key, and gives
  any other record a fresh key.
- `ProprietaireApi.ProprietaireController` and `VoitureApi.VoitureController`
  are the two controllers. They are classes holding their repositories, and
  each endpoint is a method returning a `Response` (200, 201, 400 with a
  message, 404, 204). `VoitureApi.OwnersResolve` states referential
  integrity: every car's owner id is a key of the owner table. Creating and
  deleting a car preserve it. Updating a car does not check the owner, and
  two lemmas show exactly when an update breaks integrity.
- `VoitureComponent` is the entry form. `UniqueProprietaires` is the
  `filter`/`findIndex` de-duplication of the loaded owners. Lemmas prove
  that it keeps one entry per id, keeps the first entry of each id, keeps
  every id, preserves order, is idempotent, and agrees with a one-pass scan
  that remembers the ids already seen. The class `VoitureForm` holds the
  component's state, and its methods are the handlers `loadProprietaires`,
  `submitVoiture` and `reset`.
- `VoitureListeComponent` is the car table. `WithoutId` is the filter run
  after a delete. The class `VoitureListe` holds the list and the toast
  flag.

Each HTTP round trip is split at the network. The server side is a
controller method. The client side is a method that takes how the request
settled (`AxiosOutcome`, or the data received) as a parameter.

## Model

| member | source | states |
|---|---|---|
| `Persistence.CrudRepository.ExistsById` | src/main/java/com/example/demo/controller/VoitureController.java:64 | true exactly when the id is a key of the table |
| `Persistence.CrudRepository.FindById` | src/main/java/com/example/demo/controller/ProprietaireController.java:34 | the record stored under the id when it is a key, nothing otherwise |
| `Persistence.CrudRepository.FindAll` | src/main/java/com/example/demo/controller/VoitureController.java:33 | the list holds every stored record and nothing else, in strictly increasing id order (so each once) |
| `Persistence.CrudRepository.Save` | src/main/java/com/example/demo/controller/VoitureController.java:57 | a record whose id is a key replaces the stored one; any other record is stored under a fresh key that becomes its id; the table stays keyed by id |
| `Persistence.CrudRepository.DeleteById` | src/main/java/com/example/demo/controller/VoitureController.java:78 | exactly that key is removed and every other record is kept |
| `ProprietaireApi.ProprietaireController.constructor` | src/main/java/com/example/demo/controller/ProprietaireController.java:21-23 | the controller works on the owner table it is given |
| `ProprietaireApi.ProprietaireController.GetAllProprietaires` | src/main/java/com/example/demo/controller/ProprietaireController.java:27-29 | returns every stored owner and nothing else, no id twice; the table is not modified |
| `ProprietaireApi.ProprietaireController.GetProprietaireById` | src/main/java/com/example/demo/controller/ProprietaireController.java:33-37 | 200 with the stored owner when the id is a key, 404 when it is not |
| `ProprietaireApi.ProprietaireController.CreateProprietaire` | src/main/java/com/example/demo/controller/ProprietaireController.java:41-44 | 201 with the saved owner, which has the request's names and whose id is now a key holding exactly that owner; only that key changes |
| `VoitureApi.VoitureController.constructor` | src/main/java/com/example/demo/controller/VoitureController.java:24-28 | the controller works on the car table and the owner table it is given |
| `VoitureApi.VoitureController.GetAllVoitures` | src/main/java/com/example/demo/controller/VoitureController.java:32-34 | returns every stored car and nothing else, no id twice; the table is not modified |
| `VoitureApi.VoitureController.GetVoitureById` | src/main/java/com/example/demo/controller/VoitureController.java:38-42 | 200 with the stored car if and only if the id is a key; 404 otherwise |
| `VoitureApi.VoitureController.CreateVoiture` | src/main/java/com/example/demo/controller/VoitureController.java:46-59 | a missing owner or one with id <= 0 gives 400 "Un propriétaire valide est requis.", an unknown owner id gives 400 "Propriétaire introuvable.", and neither changes a table; otherwise the car, with its owner replaced by the stored owner, is saved under its id or a fresh key and returned with 201; referential integrity is preserved |
| `VoitureApi.VoitureController.UpdateVoiture` | src/main/java/com/example/demo/controller/VoitureController.java:63-70 | an id that is not a key gives 404 and no change; otherwise the body with its id set to the path id overwrites that key and is returned with 200; the owner is not checked |
| `VoitureApi.VoitureController.DeleteVoiture` | src/main/java/com/example/demo/controller/VoitureController.java:74-80 | an id that is not a key gives 404 and no change; otherwise exactly that key is removed, other cars are untouched, the answer is 204 and referential integrity is preserved |
| `VoitureApi.HasValidOwnerReference` | src/main/java/com/example/demo/controller/VoitureController.java:47 | the first test of `createVoiture`: the owner reference is present and its id is positive |
| `VoitureApi.OwnersResolve` | src/main/java/com/example/demo/controller/VoitureController.java:51-57 | referential integrity: every stored car has an owner whose id is a key of the owner table; the create, update and delete contracts are stated against it |
| `VoitureApi.UpdateKeepsIntegrityIff` | src/main/java/com/example/demo/controller/VoitureController.java:67-69 | starting from a state with integrity, the update's overwrite keeps integrity if and only if the body's owner is present and its id is a key of the owner table |
| `VoitureApi.UpdateCanBreakIntegrity` | src/main/java/com/example/demo/controller/VoitureController.java:63-70 | there is a state with integrity, an existing car and a body the update accepts after which a car's owner does not resolve |
| `VoitureComponent.IndexOfId` | frontend/src/components/Voiture.js:35 | `findIndex`: -1 exactly when no entry has the id; otherwise an index holding the id with no earlier index holding it |
| `VoitureComponent.FindOwner` | frontend/src/components/Voiture.js:64 | `find`: nothing exactly when no entry has the id; otherwise the first entry carrying the id |
| `VoitureComponent.UniqueProprietaires` | frontend/src/components/Voiture.js:34-36 | the de-duplicating `filter`: keeps the entry at each index that is the first index of its id (`KeepFirst`, `IsFirstOccurrence`); its properties are the lemmas below |
| `VoitureComponent.FirstOwnerSelection` | frontend/src/components/Voiture.js:99 | the selection after a successful submit or a reset (the same expression at line 121): the first loaded owner's id, or the empty selection when no owner is loaded |
| `VoitureComponent.UniqueProprietairesHasUniqueIds` | frontend/src/components/Voiture.js:34-36 | the de-duplicated owners have at most one entry per id |
| `VoitureComponent.UniqueProprietairesKeepsEveryId` | frontend/src/components/Voiture.js:34-36 | for each id in the input, the first entry carrying it is kept |
| `VoitureComponent.UniqueProprietairesKeepsOnlyFirsts` | frontend/src/components/Voiture.js:35 | each kept entry is the first entry of the input with its id (the `index === findIndex(...)` test) |
| `VoitureComponent.UniqueProprietairesIsSubsequence` | frontend/src/components/Voiture.js:34-36 | the de-duplicated owners are an order-preserving subsequence of the input |
| `VoitureComponent.UniqueProprietairesIdempotent` | frontend/src/components/Voiture.js:34-36 | de-duplicating twice gives the same list as once |
| `VoitureComponent.KeepFirstOfUnique` | frontend/src/components/Voiture.js:34-36 | a list whose ids are already unique passes the filter unchanged |
| `VoitureComponent.UniqueProprietairesMatchesScan` | frontend/src/components/Voiture.js:34-36 | the `findIndex` filter equals a one-pass scan that keeps an entry when its id has not been seen before |
| `VoitureComponent.VoitureForm.constructor` | frontend/src/components/Voiture.js:8-23 | the initial state: empty fields, no selection, no owners, toast hidden |
| `VoitureComponent.VoitureForm.LoadProprietaires` | frontend/src/components/Voiture.js:31-40 | the owner list becomes the de-duplicated data, so it has unique ids; if no owner was selected and the list is non-empty, the first entry's id is selected; otherwise the selection and the fields are kept |
| `VoitureComponent.VoitureForm.PrepareSubmission` | frontend/src/components/Voiture.js:56-83 | no selection aborts with the first alert; a selection matching no loaded owner aborts with the second; a payload is posted exactly when a loaded owner has the selected id, and it carries the form's text, the parsed numbers and exactly the id, nom and prenom of the owner `find` returns |
| `VoitureComponent.VoitureForm.ApplySubmitResponse` | frontend/src/components/Voiture.js:88-110 | a resolved POST with a body clears the fields, selects the first owner and shows the toast; without a body nothing changes; a rejected POST only hides the toast; the owner list is never changed |
| `VoitureComponent.VoitureForm.SubmitVoiture` | frontend/src/components/Voiture.js:54-111 | no selection, or a selection matching no loaded owner, aborts with its alert and changes nothing; otherwise it posts exactly the payload of the form's text, the parsed numbers and the owner `find` returns; then a resolved POST with a body clears the fields, selects the first owner and shows the toast, one without a body changes nothing, and a rejected one only hides the toast; the owner list is kept |
| `VoitureComponent.VoitureForm.Reset` | frontend/src/components/Voiture.js:113-124 | the text fields are cleared, the first loaded owner's id is selected (none when no owner is loaded), the toast is hidden and the owner list is kept |
| `VoitureListeComponent.WithoutId` | frontend/src/components/VoitureListe.js:34 | the entries kept are exactly those whose id differs, each as many times as in the input, as an order-preserving subsequence; the list is unchanged when no entry has the id |
| `VoitureListeComponent.VoitureListe.constructor` | frontend/src/components/VoitureListe.js:8-11 | the initial state: no cars, toast hidden |
| `VoitureListeComponent.VoitureListe.FindAllVoitures` | frontend/src/components/VoitureListe.js:17-25 | cars received replace the list; a failed GET changes nothing |
| `VoitureListeComponent.VoitureListe.DeleteVoiture` | frontend/src/components/VoitureListe.js:27-42 | the list is filtered only when the DELETE resolves with `response.data != null`; then no remaining entry has the deleted id, the rest keep their order, and the toast is shown; on a rejected DELETE the list is unchanged and only the toast is hidden |

## Left out

- HTTP and `axios`: the network calls are not modelled. The server side of each round trip is a controller method. The client side takes how the request settled as a parameter.
- Spring Data and JPA internals are not modelled: the identity column's generation strategy, the cascade from an owner to its cars, and the database's unique constraint on (`nom`, `prenom`). The model's tables are plain maps, with a counter starting at 1 for new keys. So `ProprietaireApi.ProprietaireController.CreateProprietaire` never fails on a duplicate name pair.
- Any foreign-key constraint the database may enforce is not modelled. Referential integrity is stated about what the controller code itself checks.
- `Persistence.CrudRepository.Save`: a record with a non-zero id that is not a key is inserted under a fresh key. That is what Spring's merge did with older Hibernate versions. Newer versions reject such a record, and that rejection is not modelled.
- `Persistence.CrudRepository.FindAll`: the model returns records in primary-key order. The database promises no order.
- Ids and the car's `annee` and `prix` are unbounded integers. Overflow of a 64-bit `long` id is not modelled, and neither is the rejection (400, before `createVoiture` runs) of an `annee` or `prix` outside Java's 32-bit `int` range.
- The derived queries of `VoitureRepository` (`findByMarque` and the others) are not modelled. Spring generates their bodies, which are not visible.
- `VoitureApi.VoitureController.UpdateVoiture`, `VoitureApi.VoitureController.GetVoitureById` and `VoitureApi.VoitureController.GetAllVoitures`: in the model a car holds a copy of its owner record, taken from the request (update) or from the owner table at creation time. The database keeps only the owner's id (`proprietaire_id`) and reads the owner's current names back from the owner table. So after an update whose body carries other names for an existing owner id, or after an owner is overwritten through `createProprietaire`, the model returns the names stored with the car while the program returns the owner table's current names. Referential integrity (`VoitureApi.OwnersResolve`) is stated on owner ids only, so it is not affected.
- The entity classes only supply the fields of `Proprietaire` and `Voiture`. The owner's derived list of cars is not stored. The controllers import a `com.example.demo.model.Voiture` that is not part of this model, so the car's fields come from `modele/Voiture.java`.
- The startup seeding in `DemoApplication` is not modelled, and neither are the Swagger annotations.
- Exceptions that surface as 500 are not modelled, for example a unique-constraint or foreign-key violation raised by `save`.
- `parseInt` is a parameter of the submit methods. The owner selection is kept as the selected id rather than as its `toString()` text. That relies on `parseInt(id.toString()) == id` for the integer ids the select offers.
- `voitureChange` is not modelled. It writes whichever state field the DOM event names, and the model has no field lookup by name.
- `alert`, `console` logging, the failure branch of `loadProprietaires` (an alert only), and the `setTimeout` that hides the toast after three seconds are not modelled.
- JSX rendering, `MyToast`, the routing in `App.js` and the API base URL are not modelled. They are presentation and configuration.
- Integrity on update: `updateVoiture` does not re-validate the owner (src/main/java/com/example/demo/controller/VoitureController.java:63-70). The model follows the code (`VoitureApi.VoitureController.UpdateVoiture`, `VoitureApi.UpdateKeepsIntegrityIff`, `VoitureApi.UpdateCanBreakIntegrity`).
