/** The car entry form of the web client (the React component `Voiture`):
    it loads the owners, lets the user pick one, and posts a new car. */
module VoitureComponent {
  import opened Wrappers
  import opened Entities
  import opened Sequences

  /** No two entries share an id. */
  predicate UniqueIds(owners: seq<Proprietaire>)
  {
    forall i, j :: 0 <= i < j < |owners| ==> owners[i].id != owners[j].id
  }

  /** `owners.findIndex(p => p.id === id)`: the first index holding `id`,
      or -1 when no entry does. */
  function IndexOfId(owners: seq<Proprietaire>, id: int): (i: int)
    ensures -1 <= i < |owners|
    ensures i == -1 <==> forall k :: 0 <= k < |owners| ==> owners[k].id != id
    ensures 0 <= i ==> owners[i].id == id && forall k :: 0 <= k < i ==> owners[k].id != id
  {
    if owners == [] then -1
    else if owners[0].id == id then 0
    else
      var j := IndexOfId(owners[1..], id);
      if j == -1 then -1 else j + 1
  }

  /** Entry `i` is the first one carrying its id: the test of the filter. */
  predicate IsFirstOccurrence(owners: seq<Proprietaire>, i: nat)
    requires i < |owners|
  {
    IndexOfId(owners, owners[i].id) == i
  }

  /** The entries from index `i` on that the de-duplicating `filter` keeps. */
  function KeepFirst(owners: seq<Proprietaire>, i: nat): seq<Proprietaire>
    requires i <= |owners|
    decreases |owners| - i
  {
    if i == |owners| then []
    else if IsFirstOccurrence(owners, i) then [owners[i]] + KeepFirst(owners, i + 1)
    else KeepFirst(owners, i + 1)
  }

  /** `owners.filter((p, index, self) => index === self.findIndex(q => q.id === p.id))`. */
  function UniqueProprietaires(owners: seq<Proprietaire>): seq<Proprietaire>
  {
    KeepFirst(owners, 0)
  }

  /** `owners.find(p => p.id === id)`: the first entry carrying `id`. */
  function FindOwner(owners: seq<Proprietaire>, id: int): (found: Option<Proprietaire>)
    ensures found.None? <==> forall k :: 0 <= k < |owners| ==> owners[k].id != id
    ensures found.Some? ==>
              exists k :: 0 <= k < |owners| && owners[k] == found.value
                          && found.value.id == id && IndexOfId(owners, id) == k
  {
    var i := IndexOfId(owners, id);
    if i == -1 then None else Some(owners[i])
  }

  // ---------------------------------------------------------------------
  // What the de-duplicating filter keeps

  lemma {:induction false} KeepFirstMembers(owners: seq<Proprietaire>, i: nat)
    requires i <= |owners|
    ensures forall x :: x in KeepFirst(owners, i) <==>
              exists j :: i <= j < |owners| && owners[j] == x && IsFirstOccurrence(owners, j)
    decreases |owners| - i
  {
    if i < |owners| {
      KeepFirstMembers(owners, i + 1);
    }
  }

  lemma {:induction false} KeepFirstUniqueIds(owners: seq<Proprietaire>, i: nat)
    requires i <= |owners|
    ensures UniqueIds(KeepFirst(owners, i))
    decreases |owners| - i
  {
    if i < |owners| {
      KeepFirstUniqueIds(owners, i + 1);
      if IsFirstOccurrence(owners, i) {
        var rest := KeepFirst(owners, i + 1);
        KeepFirstMembers(owners, i + 1);
        forall b | 0 <= b < |rest|
          ensures rest[b].id != owners[i].id
        {
          assert rest[b] in rest;
          var j :| i + 1 <= j < |owners| && owners[j] == rest[b] && IsFirstOccurrence(owners, j);
        }
      }
    }
  }

  lemma {:induction false} KeepFirstIsSubsequence(owners: seq<Proprietaire>, i: nat)
    requires i <= |owners|
    ensures IsSubsequence(KeepFirst(owners, i), owners[i..])
    decreases |owners| - i
  {
    if i < |owners| {
      KeepFirstIsSubsequence(owners, i + 1);
      assert owners[i..][1..] == owners[i + 1..];
    }
  }

  /** The filtered list holds at most one entry per id. */
  lemma UniqueProprietairesHasUniqueIds(owners: seq<Proprietaire>)
    ensures UniqueIds(UniqueProprietaires(owners))
  {
    KeepFirstUniqueIds(owners, 0);
  }

  /** The filtered list keeps entries in their input order. */
  lemma UniqueProprietairesIsSubsequence(owners: seq<Proprietaire>)
    ensures IsSubsequence(UniqueProprietaires(owners), owners)
  {
    KeepFirstIsSubsequence(owners, 0);
    assert owners[0..] == owners;
  }

  /** Every id of the input is kept, through its first entry. */
  lemma UniqueProprietairesKeepsEveryId(owners: seq<Proprietaire>)
    ensures forall j :: 0 <= j < |owners| ==>
              owners[IndexOfId(owners, owners[j].id)] in UniqueProprietaires(owners)
  {
    KeepFirstMembers(owners, 0);
    forall j | 0 <= j < |owners|
      ensures owners[IndexOfId(owners, owners[j].id)] in UniqueProprietaires(owners)
    {
      assert IsFirstOccurrence(owners, IndexOfId(owners, owners[j].id));
    }
  }

  /** Every kept entry is the first entry of the input with its id. */
  lemma UniqueProprietairesKeepsOnlyFirsts(owners: seq<Proprietaire>)
    ensures forall x :: x in UniqueProprietaires(owners) ==>
              0 <= IndexOfId(owners, x.id) && owners[IndexOfId(owners, x.id)] == x
  {
    KeepFirstMembers(owners, 0);
  }

  /** A list whose ids are already unique passes the filter unchanged. */
  lemma {:induction false} KeepFirstOfUnique(owners: seq<Proprietaire>, i: nat)
    requires UniqueIds(owners) && i <= |owners|
    ensures KeepFirst(owners, i) == owners[i..]
    decreases |owners| - i
  {
    if i < |owners| {
      KeepFirstOfUnique(owners, i + 1);
      assert IsFirstOccurrence(owners, i);
      assert owners[i..] == [owners[i]] + owners[i + 1..];
    }
  }

  /** Filtering twice gives the list filtering once gives. */
  lemma UniqueProprietairesIdempotent(owners: seq<Proprietaire>)
    ensures UniqueProprietaires(UniqueProprietaires(owners)) == UniqueProprietaires(owners)
  {
    var once := UniqueProprietaires(owners);
    UniqueProprietairesHasUniqueIds(owners);
    KeepFirstOfUnique(once, 0);
    assert once[0..] == once;
  }

  // ---------------------------------------------------------------------
  // An independent definition of the same filter: one pass that remembers
  // the ids already seen

  function IdsOf(owners: seq<Proprietaire>): set<int>
  {
    set k | 0 <= k < |owners| :: owners[k].id
  }

  function DropSeen(owners: seq<Proprietaire>, seen: set<int>): seq<Proprietaire>
  {
    if owners == [] then []
    else if owners[0].id in seen then DropSeen(owners[1..], seen)
    else [owners[0]] + DropSeen(owners[1..], seen + {owners[0].id})
  }

  lemma {:induction false} KeepFirstMatchesScan(owners: seq<Proprietaire>, i: nat)
    requires i <= |owners|
    ensures KeepFirst(owners, i) == DropSeen(owners[i..], IdsOf(owners[..i]))
    decreases |owners| - i
  {
    if i < |owners| {
      KeepFirstMatchesScan(owners, i + 1);
      var seen := IdsOf(owners[..i]);
      assert owners[i..][0] == owners[i] && owners[i..][1..] == owners[i + 1..];
      assert IdsOf(owners[..i + 1]) == seen + {owners[i].id} by {
        assert owners[..i + 1] == owners[..i] + [owners[i]];
      }
      if IsFirstOccurrence(owners, i) {
        assert owners[i].id !in seen;
      } else {
        var f := IndexOfId(owners, owners[i].id);
        assert owners[..i][f] == owners[f];
        assert owners[i].id in seen;
        assert seen + {owners[i].id} == seen;
      }
    }
  }

  /** The `findIndex` filter and the one-pass scan agree on every list. */
  lemma UniqueProprietairesMatchesScan(owners: seq<Proprietaire>)
    ensures UniqueProprietaires(owners) == DropSeen(owners, {})
  {
    KeepFirstMatchesScan(owners, 0);
    assert owners[0..] == owners;
    assert IdsOf(owners[..0]) == {};
  }

  // ---------------------------------------------------------------------
  // The component's state and its handlers

  const SelectOwnerAlert: string := "Veuillez sélectionner un propriétaire"
  const OwnerNotFoundAlert: string := "Propriétaire introuvable. Veuillez réessayer."

  /** The JSON body `submitVoiture` posts: the form's fields, the two numbers
      parsed, and the chosen owner reduced to its id and names. */
  datatype VoiturePayload = VoiturePayload(
    marque: string,
    modele: string,
    couleur: string,
    immatricule: string,
    annee: int,
    prix: int,
    proprietaire: Proprietaire)

  /** What pressing Submit leads to: an alert and no request, or a POST of
      the payload. */
  datatype Submission = Aborted(alert: string) | Post(payload: VoiturePayload)

  /** The owner selected after a reset or a successful submit: the first
      loaded owner, or none (the empty string) when no owner is loaded. */
  function FirstOwnerSelection(owners: seq<Proprietaire>): Option<int>
  {
    if |owners| > 0 then Some(owners[0].id) else None
  }

  /** The component's state. The selection `proprietaireId` is a string in
      the form, either empty or the `toString()` of a loaded owner's id; it
      is kept here as that id, `None` standing for the empty string. */
  class VoitureForm {
    var marque: string
    var modele: string
    var couleur: string
    var immatricule: string
    var annee: string
    var prix: string
    var proprietaireId: Option<int>
    var proprietaires: seq<Proprietaire>
    var show: bool

    /** The loaded owners never repeat an id. */
    ghost predicate Valid()
      reads this
    {
      UniqueIds(proprietaires)
    }

    /** Text fields that Reset and a successful submit clear. */
    ghost predicate FieldsCleared()
      reads this
    {
      marque == modele == couleur == immatricule == annee == prix == ""
    }

    /** `initialState`. */
    constructor ()
      ensures Valid() && FieldsCleared()
      ensures proprietaireId == None && proprietaires == [] && !show
    {
      marque, modele, couleur, immatricule, annee, prix := "", "", "", "", "", "";
      proprietaireId := None;
      proprietaires := [];
      show := false;
    }

    /** `loadProprietaires`, once the GET of the owners has answered with
        `data`: keeps the de-duplicated owners and, when none was selected
        and some owner is loaded, selects the first one. A failed GET only
        raises an alert and is not modelled. */
    method LoadProprietaires(data: seq<Proprietaire>)
      modifies this
      ensures Valid()
      ensures proprietaires == UniqueProprietaires(data)
      ensures old(proprietaireId).None? && proprietaires != [] ==>
                proprietaireId == Some(proprietaires[0].id)
      ensures old(proprietaireId).Some? || proprietaires == [] ==>
                proprietaireId == old(proprietaireId)
      ensures marque == old(marque) && modele == old(modele) && couleur == old(couleur)
      ensures immatricule == old(immatricule) && annee == old(annee) && prix == old(prix)
      ensures show == old(show)
    {
      var uniqueProprietaires := UniqueProprietaires(data);
      UniqueProprietairesHasUniqueIds(data);
      proprietaires := uniqueProprietaires;
      if |uniqueProprietaires| > 0 && proprietaireId.None? {
        proprietaireId := Some(uniqueProprietaires[0].id);
      }
    }

    /** The part of `submitVoiture` before the POST: no selection aborts with
        the first alert, a selection matching no loaded owner with the
        second; otherwise the payload carries the form's text, the numbers
        read by `parseInt`, and exactly the id and names of the first loaded
        owner with the selected id. Nothing is changed. */
    method PrepareSubmission(parseInt: string -> int) returns (submission: Submission)
      ensures proprietaireId.None? ==> submission == Aborted(SelectOwnerAlert)
      ensures proprietaireId.Some? && FindOwner(proprietaires, proprietaireId.value).None? ==>
                submission == Aborted(OwnerNotFoundAlert)
      ensures submission.Post? <==>
                proprietaireId.Some?
                && exists k :: 0 <= k < |proprietaires| && proprietaires[k].id == proprietaireId.value
      ensures submission.Post? ==>
                var p := submission.payload;
                && p.proprietaire in proprietaires
                && p.proprietaire.id == proprietaireId.value
                && p.marque == marque && p.modele == modele && p.couleur == couleur
                && p.immatricule == immatricule
                && p.annee == parseInt(annee) && p.prix == parseInt(prix)
      ensures submission.Post? ==>
                FindOwner(proprietaires, proprietaireId.value) == Some(submission.payload.proprietaire)
    {
      if proprietaireId.None? {
        return Aborted(SelectOwnerAlert);
      }
      var proprietaire := FindOwner(proprietaires, proprietaireId.value);
      if proprietaire.None? {
        return Aborted(OwnerNotFoundAlert);
      }
      var owner := proprietaire.value;
      var payload := VoiturePayload(marque, modele, couleur, immatricule,
                                    parseInt(annee), parseInt(prix),
                                    Proprietaire(owner.id, owner.nom, owner.prenom));
      submission := Post(payload);
    }

    /** The callbacks of the POST in `submitVoiture`: a resolved request with
        a body clears the text fields, selects the first owner and shows the
        toast; a resolved request without a body changes nothing; a rejected
        one hides the toast. The owner list is never touched. */
    method ApplySubmitResponse(outcome: AxiosOutcome)
      modifies this
      ensures proprietaires == old(proprietaires)
      ensures outcome == Resolved(true) ==>
                FieldsCleared() && proprietaireId == FirstOwnerSelection(proprietaires) && show
      ensures outcome == Resolved(false) ==> unchanged(this)
      ensures outcome == Rejected ==>
                && marque == old(marque) && modele == old(modele) && couleur == old(couleur)
                && immatricule == old(immatricule) && annee == old(annee) && prix == old(prix)
                && proprietaireId == old(proprietaireId) && !show
    {
      match outcome
      case Resolved(hasData) =>
        if hasData {
          marque, modele, couleur, immatricule, annee, prix := "", "", "", "", "", "";
          proprietaireId := FirstOwnerSelection(proprietaires);
          show := true;
        }
      case Rejected =>
        show := false;
    }

    /** `submitVoiture`: an aborted submission sends nothing and changes
        nothing; a matching selection posts the payload built from the form
        and the owner `find` returns, and the state afterwards is what the
        POST's callbacks make of it. */
    method SubmitVoiture(parseInt: string -> int, outcome: AxiosOutcome) returns (submission: Submission)
      requires Valid()
      modifies this
      ensures Valid()
      ensures old(proprietaireId).None? ==>
                submission == Aborted(SelectOwnerAlert) && unchanged(this)
      ensures old(proprietaireId).Some?
              && FindOwner(old(proprietaires), old(proprietaireId).value).None? ==>
                submission == Aborted(OwnerNotFoundAlert) && unchanged(this)
      ensures old(proprietaireId).Some?
              && FindOwner(old(proprietaires), old(proprietaireId).value).Some? ==>
                submission == Post(VoiturePayload(
                  old(marque), old(modele), old(couleur), old(immatricule),
                  parseInt(old(annee)), parseInt(old(prix)),
                  FindOwner(old(proprietaires), old(proprietaireId).value).value))
      ensures submission.Post? ==>
                && submission.payload.proprietaire in old(proprietaires)
                && old(proprietaireId) == Some(submission.payload.proprietaire.id)
                && proprietaires == old(proprietaires)
                && (outcome == Resolved(true) ==>
                      FieldsCleared() && proprietaireId == FirstOwnerSelection(proprietaires) && show)
                && (outcome == Resolved(false) ==> unchanged(this))
                && (outcome == Rejected ==>
                      && marque == old(marque) && modele == old(modele) && couleur == old(couleur)
                      && immatricule == old(immatricule) && annee == old(annee) && prix == old(prix)
                      && proprietaireId == old(proprietaireId) && !show)
    {
      submission := PrepareSubmission(parseInt);
      if submission.Post? {
        ApplySubmitResponse(outcome);
      }
    }

    /** `reset`: clears the text fields, selects the first loaded owner (or
        nothing when none is loaded) and hides the toast. */
    method Reset()
      requires Valid()
      modifies this
      ensures Valid()
      ensures FieldsCleared()
      ensures proprietaires == old(proprietaires)
      ensures proprietaires != [] ==> proprietaireId == Some(proprietaires[0].id)
      ensures proprietaires == [] ==> proprietaireId == None
      ensures !show
    {
      marque, modele, couleur, immatricule, annee, prix := "", "", "", "", "", "";
      proprietaireId := FirstOwnerSelection(proprietaires);
      show := false;
    }
  }

}
