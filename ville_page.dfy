/** The city page: its validator, the save handlers' gate and the `validationErrors` state. */
module VillePage {
  import opened Wrappers
  import opened OptimisticCache
  import opened Forms
  import opened VilleService

  /** The values of the create or edit dialog; a create row's `id` is overwritten on create. */
  datatype VilleValues = VilleValues(id: int, nom: string)

  const NomRequired := "First Name is Required"

  /** `validateVille`: only `nom` is checked. */
  function ValidateVille(values: VilleValues): (m: Messages)
    ensures m.Keys == {"nom"}
    ensures m["nom"] != "" <==> values.nom == ""
    ensures m["nom"] != "" ==> m["nom"] == NomRequired
  {
    map["nom" := if !ValidateRequired(values.nom) then NomRequired else ""]
  }

  function AsVille(values: VilleValues): (r: Ville)
    ensures r.id == values.id && r.fields.nom == values.nom
  {
    Row(values.id, VilleFields(values.nom))
  }

  /** A save is rejected exactly when `nom` is empty, with the validator's messages. */
  function SubmitVille(values: VilleValues): (r: Submission<Ville>)
    ensures r.Rejected? <==> values.nom == ""
    ensures r.Rejected? ==> r.errors == map["nom" := NomRequired]
    ensures r.Accepted? ==> r.payload.id == values.id && r.payload.fields.nom == values.nom
  {
    var errors := ValidateVille(values);
    if HasError(errors) then Rejected(errors) else Accepted(AsVille(values))
  }

  /** The fields with an `onFocus` handler. */
  const FocusableFields: set<string> := {"nom"}

  class VillePageState {
    var validationErrors: ErrorState

    constructor()
      ensures validationErrors == map[]
    {
      validationErrors := map[];
    }

    /** Focusing a field drops that field's message and keeps every other entry. */
    method Focus(field: string)
      requires field in FocusableFields
      modifies this
      ensures validationErrors == Cleared(old(validationErrors), field)
    {
      validationErrors := validationErrors[field := None];
    }

    /** `onCreatingRowCancel` and `onEditingRowCancel`. */
    method Cancel()
      modifies this
      ensures validationErrors == map[]
    {
      validationErrors := map[];
    }

    /**
     * `handleCreateVille`: a rejected save only shows its messages; an accepted one clears
     * them and then issues `createVille`.
     */
    method HandleCreateVille(values: VilleValues, store: VilleStore) returns (accepted: bool)
      modifies this, store
      ensures accepted == SubmitVille(values).Accepted?
      ensures !accepted ==> validationErrors == Shown(SubmitVille(values).errors)
      ensures !accepted ==> store.cache == old(store.cache)
      ensures accepted ==> validationErrors == map[]
      ensures accepted && old(store.cache).None? ==> store.cache == None
      ensures accepted && old(store.cache).Some? ==>
        store.cache == Some(Created(old(store.cache).value, SubmitVille(values).payload))
    {
      var newValidationErrors := ValidateVille(values);
      if HasError(newValidationErrors) {
        validationErrors := Shown(newValidationErrors);
        return false;
      }
      validationErrors := map[];
      var _ := store.CreateVille(AsVille(values));
      accepted := true;
    }

    /** `handleSaveVille`: the same gate in front of `updateVille`. */
    method HandleSaveVille(values: VilleValues, store: VilleStore) returns (accepted: bool)
      modifies this, store
      ensures accepted == SubmitVille(values).Accepted?
      ensures !accepted ==> validationErrors == Shown(SubmitVille(values).errors)
      ensures !accepted ==> store.cache == old(store.cache)
      ensures accepted ==> validationErrors == map[]
      ensures accepted && old(store.cache).None? ==> store.cache == None
      ensures accepted && old(store.cache).Some? ==>
        store.cache == Some(Updated(old(store.cache).value, SubmitVille(values).payload))
    {
      var newValidationErrors := ValidateVille(values);
      if HasError(newValidationErrors) {
        validationErrors := Shown(newValidationErrors);
        return false;
      }
      validationErrors := map[];
      store.UpdateVille(AsVille(values));
      accepted := true;
    }

    /** `openDeleteConfirmModal`: the answer to the confirmation prompt is an input. */
    method ConfirmDelete(row: Ville, confirmed: bool, store: VilleStore)
      modifies store
      ensures !confirmed ==> store.cache == old(store.cache)
      ensures confirmed && old(store.cache).None? ==> store.cache == None
      ensures confirmed && old(store.cache).Some? ==> store.cache == Some(Removed(old(store.cache).value, row.id))
    {
      if confirmed {
        store.DeleteVille(row.id);
      }
    }
  }
}
