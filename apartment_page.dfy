/**
 * The apartment page: its validator, the city column's display lookup, the
 * validate-then-resolve sequence of its save handlers and the `validationErrors` state.
 */
module ApartmentPage {
  import opened Wrappers
  import opened OptimisticCache
  import opened Forms
  import opened Coercion
  import CrossReference
  import opened VilleService
  import opened ApartmentService

  /**
   * The values of the create or edit dialog. `idVille` holds the city NAME picked in the
   * select (the column displays names); a create row's `id` is overwritten on create.
   */
  datatype ApartmentValues = ApartmentValues(
    id: int,
    nom: string,
    adresse: string,
    codePostal: string,
    idVille: Value,
    prix: Value,
    kind: string)  // the `type` field

  const NomRequired := " Nom is Required"
  const AdresseRequired := "adresse is Required"
  const PrixRequired := "prix is required"
  const VilleRequired := "ville is required"

  /**
   * `validateApartment`: `nom` and `adresse` must be non-empty, `prix` must coerce to a
   * non-empty string and `idVille` must be truthy; `codePostal` and `type` are not checked.
   */
  function ValidateApartment(values: ApartmentValues): (m: Messages)
    ensures m.Keys == {"nom", "adresse", "prix", "idVille"}
    ensures m["nom"] == (if values.nom == "" then NomRequired else "")
    ensures m["adresse"] == (if values.adresse == "" then AdresseRequired else "")
    ensures m["prix"] == (if values.prix == Str("") then PrixRequired else "")
    ensures m["idVille"] == (if Truthy(values.idVille) then "" else VilleRequired)
  {
    map[
      "nom" := if !ValidateRequired(values.nom) then NomRequired else "",
      "adresse" := if !ValidateRequired(values.adresse) then AdresseRequired else "",
      "prix" := if !ValidateRequired(ToText(values.prix)) then PrixRequired else "",
      "idVille" := if !ValidateRequired(if Truthy(values.idVille) then ToText(values.idVille) else "")
                   then VilleRequired else ""]
  }

  function VilleNom(f: VilleFields): string { f.nom }

  /** The city column: `fetchedVilles.find(ville => ville.id === row.idVille)?.nom`. */
  function CityName(villes: seq<Ville>, idVille: Option<int>): (r: Option<string>)
    ensures r.None? <==> forall i :: 0 <= i < |villes| ==> idVille != Some(villes[i].id)
    ensures r.Some? ==> exists i :: CrossReference.FirstWithId(villes, idVille, i) && r.value == villes[i].fields.nom
  {
    CrossReference.LabelOf(villes, VilleNom, idVille)
  }

  /** `fetchedVilles.find(ville => ville.nom === values.idVille)?.id`. */
  function ResolveCity(villes: seq<Ville>, selected: Value): (r: Option<int>)
    ensures r.None? <==> forall i :: 0 <= i < |villes| ==> selected != Str(villes[i].fields.nom)
    ensures r.Some? ==> exists i :: CrossReference.FirstWithLabel(villes, VilleNom, selected, i) && r.value == villes[i].id
  {
    CrossReference.IdOf(villes, VilleNom, selected)
  }

  /** The payload after `values.idVille` has been overwritten with the resolved id. */
  function Resolved(values: ApartmentValues, villes: seq<Ville>): (r: Apartment)
    ensures r.fields.idVille.Some? <==> exists i :: 0 <= i < |villes| && values.idVille == Str(villes[i].fields.nom)
    ensures r.id == values.id && r.fields.nom == values.nom && r.fields.adresse == values.adresse
    ensures r.fields.prix == values.prix && r.fields.kind == values.kind && r.fields.codePostal == values.codePostal
  {
    Row(values.id, ApartmentFields(ResolveCity(villes, values.idVille), values.prix, values.kind,
                                   values.codePostal, values.adresse, values.nom))
  }

  /**
   * A save: validated first, then the city name is resolved. It is rejected exactly when a
   * required field is missing; an accepted payload carries the resolved (possibly absent) city.
   */
  function SubmitApartment(values: ApartmentValues, villes: seq<Ville>): (r: Submission<Apartment>)
    ensures r.Rejected? <==>
      values.nom == "" || values.adresse == "" || values.prix == Str("") || !Truthy(values.idVille)
    ensures r.Rejected? ==> r.errors == ValidateApartment(values)
    ensures r.Accepted? ==> r.payload.id == values.id
    ensures r.Accepted? ==> r.payload.fields.idVille == ResolveCity(villes, values.idVille)
    ensures r.Accepted? ==> r.payload.fields.nom == values.nom && r.payload.fields.adresse == values.adresse
    ensures r.Accepted? ==> r.payload.fields.prix == values.prix && r.payload.fields.kind == values.kind
    ensures r.Accepted? ==> r.payload.fields.codePostal == values.codePostal
  {
    var errors := ValidateApartment(values);
    assert HasError(errors) <==>
      errors["nom"] != "" || errors["adresse"] != "" || errors["prix"] != "" || errors["idVille"] != "";
    if HasError(errors) then Rejected(errors) else Accepted(Resolved(values, villes))
  }

  /** `codePostal` and `type` never influence validation. */
  lemma ValidationIgnoresPostalCodeAndType(values: ApartmentValues, codePostal: string, kind: string)
    ensures ValidateApartment(values.(codePostal := codePostal, kind := kind)) == ValidateApartment(values)
  {
  }

  /** A city name that matches no cached city is not caught: the save goes through without a city. */
  lemma UnknownCityIsAccepted(values: ApartmentValues, villes: seq<Ville>)
    requires values.nom != "" && values.adresse != "" && values.prix != Str("")
    requires values.idVille.Str? && values.idVille.s != ""
    requires forall i :: 0 <= i < |villes| ==> villes[i].fields.nom != values.idVille.s
    ensures SubmitApartment(values, villes).Accepted?
    ensures SubmitApartment(values, villes).payload.fields.idVille == None
  {
  }

  /** A city id of 0 counts as missing, while a price of 0 is valid. */
  lemma ZeroQuirks(values: ApartmentValues)
    requires values.idVille == Num(0) && values.prix == Num(0)
    ensures ValidateApartment(values)["idVille"] == VilleRequired
    ensures ValidateApartment(values)["prix"] == ""
  {
  }

  /** With unique city names, the name the column shows resolves back to the row's city id. */
  lemma CityRoundTrip(villes: seq<Ville>, idVille: int)
    requires forall i, j :: 0 <= i < j < |villes| ==> villes[i].fields.nom != villes[j].fields.nom
    requires CityName(villes, Some(idVille)).Some?
    ensures ResolveCity(villes, Str(CityName(villes, Some(idVille)).value)) == Some(idVille)
  {
    assert CrossReference.UniqueLabels(villes, VilleNom) by {
      forall i, j | 0 <= i < j < |villes| ensures VilleNom(villes[i].fields) != VilleNom(villes[j].fields) {
      }
    }
    CrossReference.LabelThenId(villes, VilleNom, idVille);
  }

  /** The fields with an `onFocus` handler. */
  const FocusableFields: set<string> := {"nom", "adresse", "codePostal", "idVille", "prix", "type"}

  class ApartmentPageState {
    var validationErrors: ErrorState

    constructor()
      ensures validationErrors == map[]
    {
      validationErrors := map[];
    }

    /** Focusing a field drops that field's message and keeps every other entry. */
    method Focus(field: string)
      requires field in FocusableFields
      modifies this
      ensures validationErrors == Cleared(old(validationErrors), field)
    {
      validationErrors := validationErrors[field := None];
    }

    /** `onCreatingRowCancel` and `onEditingRowCancel`. */
    method Cancel()
      modifies this
      ensures validationErrors == map[]
    {
      validationErrors := map[];
    }

    /**
     * `handleCreateApartment`: validate; on rejection show the messages and stop; otherwise
     * clear them, overwrite `idVille` with the resolved id and issue `createApartment`.
     */
    method HandleCreateApartment(values: ApartmentValues, villes: seq<Ville>, store: ApartmentStore)
      returns (accepted: bool)
      modifies this, store
      ensures accepted == SubmitApartment(values, villes).Accepted?
      ensures !accepted ==> validationErrors == Shown(SubmitApartment(values, villes).errors)
      ensures !accepted ==> store.cache == old(store.cache)
      ensures accepted ==> validationErrors == map[]
      ensures accepted && old(store.cache).None? ==> store.cache == None
      ensures accepted && old(store.cache).Some? ==>
        store.cache == Some(Created(old(store.cache).value, SubmitApartment(values, villes).payload))
    {
      var newValidationErrors := ValidateApartment(values);
      if HasError(newValidationErrors) {
        validationErrors := Shown(newValidationErrors);
        return false;
      }
      validationErrors := map[];
      var payload := Resolved(values, villes);
      var _ := store.CreateApartment(payload);
      accepted := true;
    }

    /** `handleSaveApartment`: the same sequence in front of `updateApartment`. */
    method HandleSaveApartment(values: ApartmentValues, villes: seq<Ville>, store: ApartmentStore)
      returns (accepted: bool)
      modifies this, store
      ensures accepted == SubmitApartment(values, villes).Accepted?
      ensures !accepted ==> validationErrors == Shown(SubmitApartment(values, villes).errors)
      ensures !accepted ==> store.cache == old(store.cache)
      ensures accepted ==> validationErrors == map[]
      ensures accepted && old(store.cache).None? ==> store.cache == None
      ensures accepted && old(store.cache).Some? ==>
        store.cache == Some(Updated(old(store.cache).value, SubmitApartment(values, villes).payload))
    {
      var newValidationErrors := ValidateApartment(values);
      if HasError(newValidationErrors) {
        validationErrors := Shown(newValidationErrors);
        return false;
      }
      var payload := Resolved(values, villes);
      validationErrors := map[];
      store.UpdateApartment(payload);
      accepted := true;
    }

    /**
     * `openDeleteConfirmModal`: the row's id is sent as `id + ""`; the service parses it back,
     * so exactly the clicked id is removed. The prompt's answer is an input.
     */
    method ConfirmDelete(row: Apartment, confirmed: bool, store: ApartmentStore)
      modifies store
      ensures !confirmed ==> store.cache == old(store.cache)
      ensures confirmed && old(store.cache).None? ==> store.cache == None
      ensures confirmed && old(store.cache).Some? ==> store.cache == Some(Removed(old(store.cache).value, row.id))
    {
      if confirmed {
        ghost var before := store.cache;
        store.DeleteApartment(IntToDecimal(row.id));
        if before.Some? {
          RemovedByDecimalText(before.value, row.id);
        }
      }
    }
  }
}
