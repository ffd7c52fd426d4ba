/** The reservation service: the `['Reservations']` cache entry and its optimistic updaters. */
module ReservationService {
  import opened Wrappers
  import opened OptimisticCache
  import Coercion

  /**
   * A reservation's fields besides its id. `statut` is 0 for active and -1 otherwise once a
   * form has been submitted; `idAppartement` is `None` when the apartment name matched nothing.
   */
  datatype ReservationFields = ReservationFields(
    idAppartement: Option<int>,
    debutPeriode: Coercion.Value,
    finPeriode: Coercion.Value,
    statut: int,
    code: string)

  type Reservation = Row<ReservationFields>

  /**
   * The shared `['Reservations']` cache entry. `stale` records that the entry has been
   * invalidated; the refetch that follows is network I/O and is not modelled.
   */
  class ReservationStore {
    var cache: Option<seq<Reservation>>
    var stale: bool

    constructor(initial: Option<seq<Reservation>>)
      ensures cache == initial && !stale
    {
      cache := initial;
      stale := false;
    }

    /**
     * `useCreateReservation`: `onMutate` appends under the next synthetic id, then `onSettled`
     * invalidates the entry whether the request succeeded or not. The synthetic id is never
     * reconciled with the server's.
     */
    method CreateReservation(newReservationInfo: Reservation) returns (ok: bool)
      modifies this
      ensures ok <==> old(cache).Some?
      ensures ok ==> cache == Some(Created(old(cache).value, newReservationInfo))
      ensures !ok ==> cache == old(cache)
      ensures stale
    {
      var r := CreateUpdater(cache, newReservationInfo);
      ok := r.Success?;
      if ok {
        cache := Some(r.value);
      }
      stale := true;
    }

    /** `useUpdateReservation`'s `onMutate`. */
    method UpdateReservation(newReservationInfo: Reservation)
      modifies this`cache
      ensures old(cache).None? ==> cache == None
      ensures old(cache).Some? ==> cache == Some(Updated(old(cache).value, newReservationInfo))
    {
      if cache.Some? {
        cache := Some(Updated(cache.value, newReservationInfo));
      }
    }

    /** `useDeleteReservation`'s `onMutate`: the id arrives as text and is parsed back. */
    method DeleteReservation(reservationId: string)
      modifies this`cache
      ensures old(cache).None? ==> cache == None
      ensures old(cache).Some? ==> cache == Some(RemovedByText(old(cache).value, reservationId))
    {
      if cache.Some? {
        cache := Some(RemovedByText(cache.value, reservationId));
      }
    }
  }
}
