/**
 * The reservation page: its validator, the `statut` label/code mapping, the apartment
 * column's lookup and name-to-id resolution, and the `validationErrors` state.
 */
module ReservationPage {
  import opened Wrappers
  import opened OptimisticCache
  import opened Forms
  import opened Coercion
  import CrossReference
  import opened ApartmentService
  import opened ReservationService

  /**
   * The values of the create or edit dialog. `idAppartement` holds the apartment NAME picked
   * in the select and `statut` the label picked; a create row's `id` is overwritten on create.
   */
  datatype ReservationValues = ReservationValues(
    id: int,
    code: string,
    debutPeriode: Value,
    finPeriode: Value,
    idAppartement: Value,
    statut: Value)

  const DebutRequired := "debutPeriode is Required"
  const FinRequired := "finPeriode is Required"
  const AppartementRequired := "Appartement is Required"

  const Active := "ACTIVE"
  const Unactive := "UNACTIVE"

  /**
   * `validateReservation`: both period fields must coerce to a non-empty string and
   * `idAppartement` must be truthy; `code` and `statut` are not checked.
   */
  function ValidateReservation(values: ReservationValues): (m: Messages)
    ensures m.Keys == {"debutPeriode", "finPeriode", "idAppartement"}
    ensures m["debutPeriode"] == (if values.debutPeriode == Str("") then DebutRequired else "")
    ensures m["finPeriode"] == (if values.finPeriode == Str("") then FinRequired else "")
    ensures m["idAppartement"] == (if Truthy(values.idAppartement) then "" else AppartementRequired)
  {
    map[
      "debutPeriode" := if !ValidateRequired(ToText(values.debutPeriode)) then DebutRequired else "",
      "finPeriode" := if !ValidateRequired(ToText(values.finPeriode)) then FinRequired else "",
      "idAppartement" := if !ValidateRequired(if Truthy(values.idAppartement) then ToText(values.idAppartement) else "")
                         then AppartementRequired else ""]
  }

  /** On submit: `values.statut === 'ACTIVE' ? 0 : -1`. */
  function StatutCode(statut: Value): (c: int)
    ensures c == 0 || c == -1
    ensures c == 0 <==> statut == Str(Active)
  {
    if statut == Str(Active) then 0 else -1
  }

  /** The statut column: `row.statut === 0 ? 'ACTIVE' : 'UNACTIVE'`. */
  function StatutLabel(statut: int): (l: string)
    ensures l == Active || l == Unactive
    ensures l == Active <==> statut == 0
  {
    if statut == 0 then Active else Unactive
  }

  /** Label to code to label is the identity on the two labels the select offers. */
  lemma StatutLabelRoundTrip(shown: string)
    requires shown == Active || shown == Unactive
    ensures StatutLabel(StatutCode(Str(shown))) == shown
  {
  }

  /** Code to label to code keeps 0 and turns every other code into -1. */
  lemma StatutCodeRoundTrip(code: int)
    ensures StatutCode(Str(StatutLabel(code))) == if code == 0 then 0 else -1
  {
  }

  function ApartmentNom(f: ApartmentFields): string { f.nom }

  /** The apartment column: `fetchedApartments.find(appart => appart.id === row.idAppartement)?.nom`. */
  function ApartmentName(apartments: seq<Apartment>, idAppartement: Option<int>): (r: Option<string>)
    ensures r.None? <==> forall i :: 0 <= i < |apartments| ==> idAppartement != Some(apartments[i].id)
    ensures r.Some? ==> exists i :: CrossReference.FirstWithId(apartments, idAppartement, i)
                                    && r.value == apartments[i].fields.nom
  {
    CrossReference.LabelOf(apartments, ApartmentNom, idAppartement)
  }

  /** `fetchedApartments.find(appart => appart.nom === values.idAppartement)?.id`. */
  function ResolveApartment(apartments: seq<Apartment>, selected: Value): (r: Option<int>)
    ensures r.None? <==> forall i :: 0 <= i < |apartments| ==> selected != Str(apartments[i].fields.nom)
    ensures r.Some? ==> exists i :: CrossReference.FirstWithLabel(apartments, ApartmentNom, selected, i)
                                    && r.value == apartments[i].id
  {
    CrossReference.IdOf(apartments, ApartmentNom, selected)
  }

  /** The payload after `statut` and `idAppartement` have been overwritten. */
  function Resolved(values: ReservationValues, apartments: seq<Apartment>): (r: Reservation)
    ensures r.fields.idAppartement.Some? <==>
      exists i :: 0 <= i < |apartments| && values.idAppartement == Str(apartments[i].fields.nom)
    ensures r.fields.statut == 0 <==> values.statut == Str(Active)
    ensures r.id == values.id && r.fields.code == values.code
    ensures r.fields.debutPeriode == values.debutPeriode && r.fields.finPeriode == values.finPeriode
  {
    Row(values.id, ReservationFields(ResolveApartment(apartments, values.idAppartement),
                                     values.debutPeriode, values.finPeriode,
                                     StatutCode(values.statut), values.code))
  }

  /**
   * A save: validated first, then the apartment name and the statut label are resolved. It
   * is rejected exactly when a required field is missing.
   */
  function SubmitReservation(values: ReservationValues, apartments: seq<Apartment>): (r: Submission<Reservation>)
    ensures r.Rejected? <==>
      values.debutPeriode == Str("") || values.finPeriode == Str("") || !Truthy(values.idAppartement)
    ensures r.Rejected? ==> r.errors == ValidateReservation(values)
    ensures r.Accepted? ==> r.payload.id == values.id && r.payload.fields.code == values.code
    ensures r.Accepted? ==> r.payload.fields.idAppartement == ResolveApartment(apartments, values.idAppartement)
    ensures r.Accepted? ==> (r.payload.fields.statut == 0 <==> values.statut == Str(Active))
    ensures r.Accepted? ==> r.payload.fields.statut in {0, -1}
    ensures r.Accepted? ==> r.payload.fields.debutPeriode == values.debutPeriode
    ensures r.Accepted? ==> r.payload.fields.finPeriode == values.finPeriode
  {
    var errors := ValidateReservation(values);
    assert HasError(errors) <==>
      errors["debutPeriode"] != "" || errors["finPeriode"] != "" || errors["idAppartement"] != "";
    if HasError(errors) then Rejected(errors) else Accepted(Resolved(values, apartments))
  }

  /** `code` and `statut` never influence validation. */
  lemma ValidationIgnoresCodeAndStatut(values: ReservationValues, code: string, statut: Value)
    ensures ValidateReservation(values.(code := code, statut := statut)) == ValidateReservation(values)
  {
  }

  /** With unique apartment ids, the id a name resolves to is shown as that name. */
  lemma ApartmentRoundTrip(apartments: seq<Apartment>, selected: Value)
    requires UniqueIds(apartments)
    requires ResolveApartment(apartments, selected).Some?
    ensures selected.Str?
    ensures ApartmentName(apartments, ResolveApartment(apartments, selected)) == Some(selected.s)
  {
    CrossReference.IdThenLabel(apartments, ApartmentNom, selected);
  }

  /** The fields with an `onFocus` handler. */
  const FocusableFields: set<string> := {"code", "debutPeriode", "finPeriode", "idAppartement", "statut"}

  class ReservationPageState {
    var validationErrors: ErrorState

    constructor()
      ensures validationErrors == map[]
    {
      validationErrors := map[];
    }

    /** Focusing a field drops that field's message and keeps every other entry. */
    method Focus(field: string)
      requires field in FocusableFields
      modifies this
      ensures validationErrors == Cleared(old(validationErrors), field)
    {
      validationErrors := validationErrors[field := None];
    }

    /** `onCreatingRowCancel` and `onEditingRowCancel`. */
    method Cancel()
      modifies this
      ensures validationErrors == map[]
    {
      validationErrors := map[];
    }

    /**
     * `handleCreateReservation`: validate; on rejection show the messages and stop before any
     * mutation; otherwise clear them, overwrite `idAppartement` and `statut`, and issue
     * `createReservation`, which also invalidates the cache.
     */
    method HandleCreateReservation(values: ReservationValues, apartments: seq<Apartment>, store: ReservationStore)
      returns (accepted: bool)
      modifies this, store
      ensures accepted == SubmitReservation(values, apartments).Accepted?
      ensures !accepted ==> validationErrors == Shown(SubmitReservation(values, apartments).errors)
      ensures !accepted ==> store.cache == old(store.cache) && store.stale == old(store.stale)
      ensures accepted ==> validationErrors == map[] && store.stale
      ensures accepted && old(store.cache).None? ==> store.cache == None
      ensures accepted && old(store.cache).Some? ==>
        store.cache == Some(Created(old(store.cache).value, SubmitReservation(values, apartments).payload))
    {
      var newValidationErrors := ValidateReservation(values);
      if HasError(newValidationErrors) {
        validationErrors := Shown(newValidationErrors);
        return false;
      }
      validationErrors := map[];
      var payload := Resolved(values, apartments);
      var _ := store.CreateReservation(payload);
      accepted := true;
    }

    /** `handleSaveReservation`: the same sequence in front of `updateReservation`. */
    method HandleSaveReservation(values: ReservationValues, apartments: seq<Apartment>, store: ReservationStore)
      returns (accepted: bool)
      modifies this, store
      ensures accepted == SubmitReservation(values, apartments).Accepted?
      ensures !accepted ==> validationErrors == Shown(SubmitReservation(values, apartments).errors)
      ensures !accepted ==> store.cache == old(store.cache)
      ensures accepted ==> validationErrors == map[]
      ensures store.stale == old(store.stale)
      ensures accepted && old(store.cache).None? ==> store.cache == None
      ensures accepted && old(store.cache).Some? ==>
        store.cache == Some(Updated(old(store.cache).value, SubmitReservation(values, apartments).payload))
    {
      var newValidationErrors := ValidateReservation(values);
      if HasError(newValidationErrors) {
        validationErrors := Shown(newValidationErrors);
        return false;
      }
      validationErrors := map[];
      var payload := Resolved(values, apartments);
      store.UpdateReservation(payload);
      accepted := true;
    }

    /**
     * `openDeleteConfirmModal`: the row's id is sent as `id + ""` and parsed back. The page
     * renders no delete button and nothing calls this handler, so no user action reaches it.
     */
    method ConfirmDelete(row: Reservation, confirmed: bool, store: ReservationStore)
      modifies store
      ensures store.stale == old(store.stale)
      ensures !confirmed ==> store.cache == old(store.cache)
      ensures confirmed && old(store.cache).None? ==> store.cache == None
      ensures confirmed && old(store.cache).Some? ==> store.cache == Some(Removed(old(store.cache).value, row.id))
    {
      if confirmed {
        ghost var before := store.cache;
        store.DeleteReservation(IntToDecimal(row.id));
        if before.Some? {
          RemovedByDecimalText(before.value, row.id);
        }
      }
    }
  }
}
