# Location back office: optimistic cache updaters and form logic

This project models the logic inside a small property-rental admin front end. The front end
lists, creates, edits and deletes cities (`Ville`), apartments (`Apartment`) and reservations
(`Reservation`). It has two parts:

* **Resource services** (`src/services/*.service.ts`). Each one keeps a single cached list in
  the shared query cache: `['Villes']`, `['apartments']` or `['Reservations']`. Each mutation
  rewrites that list *optimistically* when it is called, before the server answers:
  * create appends the payload under the synthetic id `max(0, ids) + 1`;
  * update replaces every entry whose `id` matches;
  * delete filters out the matching id. Apartments and reservations receive that id as text
    and parse it back with `parseInt`.
* **Pages** (`src/*/index.tsx`). Each page has:
  * a required-field validator producing a field → message map;
  * a save gate that sends nothing while a message is non-empty;
  * first-match foreign-key lookups: id → name for display, and name → id on submit;
  * the reservation `statut` label ↔ code mapping;
  * per-field clearing of messages on focus, and cancel handlers.

Modules, leaves first:

| file | module | contents |
|---|---|---|
| wrappers.dfy | `Wrappers` | `Option` (`None` is `undefined`), `Result` |
| coercion.dfy | `Coercion` | form values (`Str`/`Num`/`Undef`), `+ ""`, truthiness, `parseInt` on decimal text |
| cache.dfy | `OptimisticCache` | `Row<P>`, the create/update/delete updaters, their lemmas |
| cross_reference.dfy | `CrossReference` | `find`-based id → name and name → id lookups |
| forms.dfy | `Forms` | message maps, the `validationErrors` state, the submission outcome |
| ville_service.dfy, apartment_service.dfy, reservation_service.dfy | `VilleService`, `ApartmentService`, `ReservationService` | entity records; a store class holding `var cache: Option<seq<…>>` whose methods apply the updaters |
| ville_page.dfy, apartment_page.dfy, reservation_page.dfy | `VillePage`, `ApartmentPage`, `ReservationPage` | validators, submission functions, a page class holding `validationErrors` whose handlers drive the stores |

Every record is `Row(id, fields)`, so the updaters are written once for all three services.

The page classes follow the handlers step by step: validate, show the messages and stop, clear
them, rewrite the resolved fields, call the store. Each handler's postcondition ties the new
page state and store state to the pure `Submit…` function of the same page.

## Model

| member | source | states |
|---|---|---|
| OptimisticCache.MaxIdFrom | src/services/ville.service.ts:39 | the `reduce` fold returns a value at least its start and at least every id, and equal to the start or to some id, i.e. `max(start, ids)` |
| OptimisticCache.NextId | src/services/ville.service.ts:39 | the synthetic id is at least 1, above every existing id, 1 on an empty list, and otherwise one more than an existing id or equal to 1 |
| OptimisticCache.NextIdIsLeastFresh | src/services/appartement.service.ts:45 | no number ≥ 1 above all existing ids is smaller than the synthetic id, so it is exactly `max(0, ids) + 1` |
| OptimisticCache.Created | src/services/ville.service.ts:34-41 | create grows the list by exactly one; the old list is an unchanged prefix; the new last entry has the payload's fields, the synthetic id, and an id above every earlier id |
| OptimisticCache.CreateUpdater | src/services/appartement.service.ts:39-47 | the create updater fails exactly when the cache entry is absent (spreading `undefined`), and otherwise yields the created list |
| OptimisticCache.CreatePreservesUniqueIds | src/services/ville.service.ts:39 | a create on a list with unique ids leaves the ids unique |
| OptimisticCache.Updated | src/services/ville.service.ts:86-89 | update keeps the length and replaces, at each position, exactly the entries whose id equals the new value's id by the new value; all others stay identical and in place |
| OptimisticCache.UpdateAbsentIsIdentity | src/services/ville.service.ts:87-89 | an update whose id is not in the list leaves the list unchanged |
| OptimisticCache.UpdatePreservesUniqueIds | src/services/appartement.service.ts:95-97 | an update keeps unique ids unique |
| OptimisticCache.UpdateIdempotent | src/services/reservation.service.ts:92-94 | applying the same update twice equals applying it once |
| OptimisticCache.Removed | src/services/ville.service.ts:115-116 | delete never grows the list; the survivors are drawn from the list (as a multiset) and none carries the deleted id; every entry with a different id survives as often as it occurred |
| OptimisticCache.RemovedConcat | src/services/ville.service.ts:116 | delete distributes over concatenation, so the survivors keep their relative order |
| OptimisticCache.RemovedSingle | src/services/reservation.service.ts:129 | a single entry is dropped exactly when its id equals the deleted id |
| OptimisticCache.RemovedAbsentIsIdentity | src/services/appartement.service.ts:122 | deleting an id that is not present changes nothing |
| OptimisticCache.RemovedIdempotent | src/services/ville.service.ts:114-117 | deleting twice equals deleting once |
| OptimisticCache.RemovedCount | src/services/reservation.service.ts:127-130 | the length drops by exactly the number of entries carrying the deleted id |
| OptimisticCache.RemovedByDecimalText | src/services/appartement.service.ts:122 | for every integer id, sending `id + ""` and parsing it back removes exactly the entries with that id |
| OptimisticCache.RemovedByNonNumericText | src/services/reservation.service.ts:129 | text that the modelled `parseInt` reads as `NaN` removes nothing, since every `id !== NaN` |
| OptimisticCache.RemovedByText | src/services/appartement.service.ts:121-122 | the delete updater for a text id never grows the list, draws its survivors from it, keeps no entry whose id is the parsed text, and changes nothing when the text parses to `NaN` |
| OptimisticCache.RemovedPreservesUniqueIds | src/services/ville.service.ts:116 | a delete on a list with unique ids leaves the ids unique |
| Coercion.NatToDecimal | src/Appartement/index.tsx:204 | `n + ""` is a non-empty run of decimal digits without a leading zero |
| Coercion.IntToDecimal | src/Appartement/index.tsx:204 | `id + ""` is non-empty, starts with `-` exactly for a negative id, and is otherwise decimal digits |
| Coercion.ToText | src/Appartement/index.tsx:308 | `v + ""` is empty only for the empty string, so `0` and `undefined` coerce to non-empty text |
| Coercion.Truthy | src/Appartement/index.tsx:309 | exactly `""`, `0` and `undefined` are falsy, and a truthy value never coerces to `""` |
| Coercion.ParseInt | src/services/appartement.service.ts:122 | `parseInt` gives `NaN` exactly when no digit follows the optional minus sign, and a negative result only after a minus sign |
| Coercion.ParseIntRoundTrip | src/services/appartement.service.ts:122 | `parseInt(n + "")` is `n` for every integer `n` |
| CrossReference.FirstIndex | src/Appartement/index.tsx:99 | `find` yields the least index whose element passes the test, and nothing exactly when no element passes |
| CrossReference.LabelOf | src/Appartement/index.tsx:99 | the displayed name is absent exactly when no row has the id, and otherwise is the name of the first row with that id |
| CrossReference.IdOf | src/Appartement/index.tsx:164 | the resolved id is absent exactly when no row's name is strictly equal to the submitted value, and otherwise is the id of the first such row |
| CrossReference.LabelThenId | src/Appartement/index.tsx:164 | with unique names, resolving the name displayed for an id yields that id |
| CrossReference.IdThenLabel | src/Reservation/index.tsx:101 | with unique ids, the id a value resolves to is displayed as that value |
| Forms.ValidateRequired | src/Ville/index.tsx:206 | `!!value.length` holds exactly for a non-empty string |
| Forms.HasError | src/Ville/index.tsx:74 | `Object.values(m).some(e => e)` is false exactly when every message is `""` |
| Forms.ShowsError | src/Appartement/index.tsx:56 | `!!validationErrors?.x` holds exactly when the field is present with a defined, non-empty message |
| Forms.Shown | src/Ville/index.tsx:75 | a rejected save stores one defined entry per validator key holding its message |
| Forms.Cleared | src/Ville/index.tsx:47-51 | focusing a field sets that field to `undefined` and keeps every other entry |
| Forms.ShownMarksFailedFields | src/Appartement/index.tsx:56-57 | after a rejection a field is marked as erroneous exactly when its message is non-empty |
| Forms.ClearedUnmarksOnlyField | src/Appartement/index.tsx:58-62 | after focusing, the focused field is unmarked and every other field keeps its mark |
| VilleService.VilleStore.CreateVille | src/services/ville.service.ts:31-43 | create succeeds exactly when the cache is present and then sets it to the created list; an absent cache stays as it was |
| VilleService.VilleStore.UpdateVille | src/services/ville.service.ts:83-91 | an absent cache stays absent; a present one becomes the updated list |
| VilleService.VilleStore.DeleteVille | src/services/ville.service.ts:114-117 | the numeric id is compared directly; an absent cache stays absent |
| ApartmentService.ApartmentStore.CreateApartment | src/services/appartement.service.ts:36-51 | as CreateVille; no invalidation follows |
| ApartmentService.ApartmentStore.UpdateApartment | src/services/appartement.service.ts:91-99 | an absent cache stays absent; a present one becomes the updated list |
| ApartmentService.ApartmentStore.DeleteApartment | src/services/appartement.service.ts:120-123 | a present cache loses the entries whose id is `parseInt` of the given text |
| ReservationService.ReservationStore.CreateReservation | src/services/reservation.service.ts:35-48 | as CreateVille, and the entry is then marked invalidated whether or not the create succeeded |
| ReservationService.ReservationStore.UpdateReservation | src/services/reservation.service.ts:88-96 | an absent cache stays absent; a present one becomes the updated list; the entry is not invalidated |
| ReservationService.ReservationStore.DeleteReservation | src/services/reservation.service.ts:127-130 | an absent cache stays absent; a present one loses the entries whose id is `parseInt` of the text |
| VillePage.ValidateVille | src/Ville/index.tsx:208-212 | the only key is `nom`; its message is non-empty exactly when `nom` is empty, and is then `'First Name is Required'` |
| VillePage.SubmitVille | src/Ville/index.tsx:73-79 | a save is rejected exactly when `nom` is empty, with the validator's map; an accepted payload keeps the values |
| VillePage.VillePageState.Focus | src/Ville/index.tsx:47-51 | focusing `nom` clears only `nom` |
| VillePage.VillePageState.Cancel | src/Ville/index.tsx:130-132 | cancelling create or edit empties the error state |
| VillePage.VillePageState.HandleCreateVille | src/Ville/index.tsx:69-81 | a rejected save sets the error state to the messages and leaves the cache alone; an accepted one empties the error state, then creates |
| VillePage.VillePageState.HandleSaveVille | src/Ville/index.tsx:84-96 | the same gate, then the update |
| VillePage.VillePageState.ConfirmDelete | src/Ville/index.tsx:99-104 | after confirmation the row's numeric id is deleted; otherwise nothing changes |
| ApartmentPage.ValidateApartment | src/Appartement/index.tsx:302-311 | exactly the keys `nom`, `adresse`, `prix`, `idVille`; `nom`/`adresse` flagged iff empty; `prix` flagged iff it coerces to `""`; `idVille` flagged iff falsy |
| ApartmentPage.ZeroQuirks | src/Appartement/index.tsx:308-309 | a city id of 0 is reported missing while a price of 0 passes |
| ApartmentPage.ValidationIgnoresPostalCodeAndType | src/Appartement/index.tsx:304-311 | changing `codePostal` or `type` never changes the validator's output |
| ApartmentPage.CityName | src/Appartement/index.tsx:99 | the city column shows nothing exactly when no city has the row's id, and otherwise the name of the first city with that id |
| ApartmentPage.ResolveCity | src/Appartement/index.tsx:164 | the submitted city name resolves to nothing exactly when no city has that name, and otherwise to the id of the first city with it |
| ApartmentPage.Resolved | src/Appartement/index.tsx:164 | the submitted record has a city id exactly when the chosen name matches some city; every other value is copied |
| ApartmentPage.SubmitApartment | src/Appartement/index.tsx:156-164 | rejected exactly when a required field is missing, with the validator's map; an accepted payload carries the first-match city id and every other value unchanged |
| ApartmentPage.UnknownCityIsAccepted | src/Appartement/index.tsx:156-164 | a filled-in city name that matches no city passes validation and is submitted with no city id: resolution comes after validation |
| ApartmentPage.CityRoundTrip | src/Appartement/index.tsx:99 | with unique city names, the name the city column shows resolves back to the row's city id |
| ApartmentPage.ApartmentPageState.Focus | src/Appartement/index.tsx:54-144 | focusing any of the six fields clears only that field |
| ApartmentPage.ApartmentPageState.Cancel | src/Appartement/index.tsx:232-234 | cancelling create or edit empties the error state |
| ApartmentPage.ApartmentPageState.HandleCreateApartment | src/Appartement/index.tsx:152-172 | rejected: the error state becomes the messages and no mutation happens; accepted: the error state is emptied and the resolved payload is created |
| ApartmentPage.ApartmentPageState.HandleSaveApartment | src/Appartement/index.tsx:175-198 | the same sequence, then the update |
| ApartmentPage.ApartmentPageState.ConfirmDelete | src/Appartement/index.tsx:201-206 | after confirmation exactly the clicked row's id is deleted from the cache |
| ReservationPage.ValidateReservation | src/Reservation/index.tsx:288-296 | exactly the keys `debutPeriode`, `finPeriode`, `idAppartement`; a period is flagged iff it coerces to `""`; `idAppartement` iff falsy |
| ReservationPage.ValidationIgnoresCodeAndStatut | src/Reservation/index.tsx:290-296 | changing `code` or `statut` never changes the validator's output |
| ReservationPage.StatutCode | src/Reservation/index.tsx:153 | the submitted code is 0 exactly for the label `'ACTIVE'` and -1 for every other value |
| ReservationPage.StatutLabel | src/Reservation/index.tsx:121 | the shown label is `'ACTIVE'` exactly when the code is 0, else `'UNACTIVE'` |
| ReservationPage.StatutLabelRoundTrip | src/Reservation/index.tsx:133 | label → code → label is the identity on the two offered labels |
| ReservationPage.StatutCodeRoundTrip | src/Reservation/index.tsx:175 | code → label → code keeps 0 and maps every non-zero code to -1 |
| ReservationPage.ApartmentName | src/Reservation/index.tsx:101 | the apartment column shows nothing exactly when no apartment has the row's id, and otherwise the name of the first apartment with that id |
| ReservationPage.ResolveApartment | src/Reservation/index.tsx:152 | the submitted apartment name resolves to nothing exactly when no apartment has it, and otherwise to the first such apartment's id |
| ReservationPage.Resolved | src/Reservation/index.tsx:152-153 | the submitted record has an apartment id exactly when the chosen name matches some apartment, its statut is 0 exactly for `'ACTIVE'`, and every other value is copied |
| ReservationPage.SubmitReservation | src/Reservation/index.tsx:145-153 | rejected exactly when a period or the apartment is missing; an accepted payload carries the first-match apartment id, the statut code, and the other values unchanged |
| ReservationPage.ApartmentRoundTrip | src/Reservation/index.tsx:152 | with unique apartment ids, the id a name resolves to is displayed as that name |
| ReservationPage.ReservationPageState.Focus | src/Reservation/index.tsx:59-131 | focusing any of the five fields clears only that field |
| ReservationPage.ReservationPageState.Cancel | src/Reservation/index.tsx:217-219 | cancelling create or edit empties the error state |
| ReservationPage.ReservationPageState.HandleCreateReservation | src/Reservation/index.tsx:141-162 | rejected: the error state becomes the messages before any mutation; accepted: the error state is emptied, the resolved payload is created and the cache is invalidated |
| ReservationPage.ReservationPageState.HandleSaveReservation | src/Reservation/index.tsx:165-183 | the same gate, then the update; nothing is invalidated |
| ReservationPage.ReservationPageState.ConfirmDelete | src/Reservation/index.tsx:186-190 | if the handler ran and was confirmed, exactly the given row's id would be deleted from the cache; the page renders no delete button and nothing calls the handler, so no user action reaches it |

## Left out

- HTTP transport: the `axios`/`fetch` requests, endpoint URLs and promise resolution are network I/O against a server that is not part of this model. This includes the reservation delete request to the fixed path `/reservation/3`.
- List fetching and its `'Failed to fetch …'` errors are network I/O. A store's starting cache, present or absent, is a constructor parameter instead.
- Query-cache internals: hook lifecycle, pending and fetching flags, and when `onMutate` runs relative to the request. Mutations are modelled as cache edits applied in call order.
- Invalidation records `stale` on the reservation store. The refetch that follows is I/O and is left out.
- Rendering, dialogs, the closing of the modal after a save, and `console.log` are presentation. So are navigation (`src/listItem.tsx`) and routing (`src/router.tsx`). The answer to `window.confirm` is an input of `ConfirmDelete`.
- ApartmentService.ApartmentStore.CreateApartment: the source throws a `TypeError` when the cache is absent. The model reports `ok == false` and leaves the cache as it was; the fate of the thrown error is not modelled. The same holds for `CreateVille` and `CreateReservation`.
- Coercion.ParseIntRoundTrip: `parseInt` is modelled only as an optional `-` followed by the longest run of decimal digits. Leading whitespace, `+`, `0x` prefixes and radix handling are left out, because the only texts passed are `id + ""` of integer ids.
- Numbers are unbounded integers, and fractional prices and `NaN` ids are floating point, which the model leaves out. JavaScript numbers are doubles, so the model's results depend on ids staying small:
  - Above 2^53, `max + 1` can round back to `max`. `OptimisticCache.NextId` and `OptimisticCache.CreatePreservesUniqueIds` then no longer describe the source.
  - From 10^21 on, `n + ""` is written in exponent form. `Coercion.ParseIntRoundTrip` and `OptimisticCache.RemovedByDecimalText` then no longer describe the source.
- HandleCreateApartment, HandleSaveApartment, HandleCreateReservation and HandleSaveReservation: the source overwrites fields of the dialog's own `values` object in place. These are `values.idVille`, `values.idAppartement` and `values.statut`. The model builds a fresh payload (`Resolved`) and leaves the values untouched. It therefore does not capture that the dialog's object holds the resolved id and code afterwards, not the chosen name and label. It also misses what a later read of that object sees, for example a second save after a failed request.
- `nom`, `adresse`, `codePostal`, `type` and `code` are strings; `.length` on a non-string value is not modelled.
- Reconciliation or rollback of optimistic edits does not exist in the code and is not modelled. Neither is a dedicated reservation status toggle: the status changes only through an ordinary save.

## Where the code and its description differ

The model follows the code in each case.

- The described apartment validator returns a message for all six fields. The code returns exactly four keys and never checks `codePostal` or `type`.
- The description says an unresolved foreign key fails validation. The code validates the submitted *name* first and resolves it afterwards. A name that matches nothing therefore passes with an undefined id (`ApartmentPage.UnknownCityIsAccepted`).
- The description lists a status toggle transition for reservations. The code has none.
- The description treats delete as available for every resource. The reservation page defines `openDeleteConfirmModal`, but its row actions render only an Edit button and nothing calls the handler. The reservation delete updater is therefore unreachable from the page.
