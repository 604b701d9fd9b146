/** The car table of the web client (the React component `VoitureListe`). */
module VoitureListeComponent {
  import opened Wrappers
  import opened Entities
  import opened Sequences

  /** `voitures.filter(voiture => voiture.id !== voitureId)`: exactly the
      entries whose id differs, each as often as in the input, in their
      order; the list itself when no entry has that id. */
  function WithoutId(voitures: seq<Voiture>, voitureId: int): (kept: seq<Voiture>)
    ensures forall v :: v in kept <==> v in voitures && v.id != voitureId
    ensures IsSubsequence(kept, voitures)
    ensures (forall k :: 0 <= k < |voitures| ==> voitures[k].id != voitureId) ==> kept == voitures
    ensures forall v :: multiset(kept)[v] == if v.id != voitureId then multiset(voitures)[v] else 0
  {
    if voitures == [] then []
    else
      var rest := WithoutId(voitures[1..], voitureId);
      assert voitures == [voitures[0]] + voitures[1..];
      assert multiset(voitures) == multiset{voitures[0]} + multiset(voitures[1..]);
      if voitures[0].id != voitureId then [voitures[0]] + rest else rest
  }

  class VoitureListe {
    var voitures: seq<Voiture>
    var show: bool

    constructor ()
      ensures voitures == [] && !show
    {
      voitures := [];
      show := false;
    }

    /** `findAllVoitures`: a resolved GET replaces the list with the cars
        received; a rejected one is only logged. */
    method FindAllVoitures(received: Option<seq<Voiture>>)
      modifies this
      ensures received.Some? ==> voitures == received.value && show == old(show)
      ensures received.None? ==> unchanged(this)
    {
      if received.Some? {
        voitures := received.value;
      }
    }

    /** `deleteVoiture(voitureId)`, once the DELETE has settled. Resolved
        with a body: the toast is shown and no remaining entry has the
        deleted id, the others keeping their order. Resolved without a body:
        nothing changes. Rejected: the list is left as it was and the toast
        hidden. */
    method DeleteVoiture(voitureId: int, outcome: AxiosOutcome)
      modifies this
      ensures outcome == Resolved(true) ==>
                && voitures == WithoutId(old(voitures), voitureId)
                && (forall k :: 0 <= k < |voitures| ==> voitures[k].id != voitureId)
                && show
      ensures outcome == Resolved(false) ==> unchanged(this)
      ensures outcome == Rejected ==> voitures == old(voitures) && !show
    {
      match outcome
      case Resolved(hasData) =>
        if hasData {
          show := true;
          voitures := WithoutId(voitures, voitureId);
        }
      case Rejected =>
        show := false;
    }
  }

}
