/** The apartment service: the `['apartments']` cache entry and its three optimistic updaters. */
module ApartmentService {
  import opened Wrappers
  import opened OptimisticCache
  import Coercion

  /**
   * An apartment's fields besides its id. `idVille` is `None` when the submitted city name
   * matched no city; `prix` is kept as the edit dialog delivered it.
   */
  datatype ApartmentFields = ApartmentFields(
    idVille: Option<int>,
    prix: Coercion.Value,
    kind: string,  // the `type` field
    codePostal: string,
    adresse: string,
    nom: string)

  type Apartment = Row<ApartmentFields>

  /** The shared `['apartments']` cache entry; `None` until the list has been fetched. */
  class ApartmentStore {
    var cache: Option<seq<Apartment>>

    constructor(initial: Option<seq<Apartment>>)
      ensures cache == initial
    {
      cache := initial;
    }

    /**
     * `useCreateapartment`'s `onMutate`. The previous list is spread without `?.`, so an
     * absent cache throws; there is no `onSettled`, so nothing is invalidated.
     */
    method CreateApartment(newApartmentInfo: Apartment) returns (ok: bool)
      modifies this
      ensures ok <==> old(cache).Some?
      ensures ok ==> cache == Some(Created(old(cache).value, newApartmentInfo))
      ensures !ok ==> cache == old(cache)
    {
      var r := CreateUpdater(cache, newApartmentInfo);
      ok := r.Success?;
      if ok {
        cache := Some(r.value);
      }
    }

    /** `useUpdateapartment`'s `onMutate`. */
    method UpdateApartment(newApartmentInfo: Apartment)
      modifies this
      ensures old(cache).None? ==> cache == None
      ensures old(cache).Some? ==> cache == Some(Updated(old(cache).value, newApartmentInfo))
    {
      if cache.Some? {
        cache := Some(Updated(cache.value, newApartmentInfo));
      }
    }

    /** `useDeleteApartment`'s `onMutate`: the id arrives as text and is parsed back. */
    method DeleteApartment(apartmentId: string)
      modifies this
      ensures old(cache).None? ==> cache == None
      ensures old(cache).Some? ==> cache == Some(RemovedByText(old(cache).value, apartmentId))
    {
      if cache.Some? {
        cache := Some(RemovedByText(cache.value, apartmentId));
      }
    }
  }
}
