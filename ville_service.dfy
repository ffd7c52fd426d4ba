/** The city service: the `['Villes']` cache entry and its three optimistic updaters. */
module VilleService {
  import opened Wrappers
  import opened OptimisticCache

  /** A city's fields besides its id. */
  datatype VilleFields = VilleFields(nom: string)

  type Ville = Row<VilleFields>

  /** The shared `['Villes']` cache entry; `None` until the list has been fetched. */
  class VilleStore {
    var cache: Option<seq<Ville>>

    /** The fetched list (or its absence) is an input: fetching is not modelled. */
    constructor(initial: Option<seq<Ville>>)
      ensures cache == initial
    {
      cache := initial;
    }

    /** `useCreateVille`'s `onMutate`: append the payload under the next synthetic id. */
    method CreateVille(newVilleInfo: Ville) returns (ok: bool)
      modifies this
      ensures ok <==> old(cache).Some?
      ensures ok ==> cache == Some(Created(old(cache).value, newVilleInfo))
      ensures !ok ==> cache == old(cache)
    {
      var r := CreateUpdater(cache, newVilleInfo);
      ok := r.Success?;
      if ok {
        cache := Some(r.value);
      }
    }

    /** `useUpdateVille`'s `onMutate`: `prevVilles?.map(...)`. */
    method UpdateVille(newVilleInfo: Ville)
      modifies this
      ensures old(cache).None? ==> cache == None
      ensures old(cache).Some? ==> cache == Some(Updated(old(cache).value, newVilleInfo))
    {
      if cache.Some? {
        cache := Some(Updated(cache.value, newVilleInfo));
      }
    }

    /** `useDeleteVille`'s `onMutate`: the numeric id is compared with `!==` as it is. */
    method DeleteVille(villeId: int)
      modifies this
      ensures old(cache).None? ==> cache == None
      ensures old(cache).Some? ==> cache == Some(Removed(old(cache).value, villeId))
    {
      if cache.Some? {
        cache := Some(Removed(cache.value, villeId));
      }
    }
  }
}
