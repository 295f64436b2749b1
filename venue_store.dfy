/**
 * The shared venue store: the venue collection and its "loaded" flag, two
 * whole-value setters, and the snapshot the persistence layer writes to
 * browser storage.
 */
module VenueStore {

  /** A cached venue, reduced to the fields the modelled code reads. */
  datatype Venue = Venue(id: string, name: string)

  /** What `partialize` hands to the persistence layer. */
  datatype Snapshot = Snapshot(venues: seq<Venue>, isLoaded: bool)

  class Store {
    var venues: seq<Venue>
    var isLoaded: bool

    /** The initial state: no venues, not loaded. */
    constructor ()
      ensures venues == [] && !isLoaded
    {
      venues := [];
      isLoaded := false;
    }

    /** setVenues: replaces the whole collection; the flag is kept. */
    method SetVenues(vs: seq<Venue>)
      modifies this
      ensures venues == vs
      ensures isLoaded == old(isLoaded)
    {
      venues := vs;
    }

    /** setIsLoaded: sets the flag; the collection is kept. */
    method SetIsLoaded(loaded: bool)
      modifies this
      ensures isLoaded == loaded
      ensures venues == old(venues)
    {
      isLoaded := loaded;
    }

    /** partialize: the persisted part of the state. */
    function Partialize(): (snapshot: Snapshot)
      reads this
      ensures snapshot.venues == venues && snapshot.isLoaded == isLoaded
    {
      Snapshot(venues, isLoaded)
    }

    /**
     * Restoring a persisted snapshot on page load: the stored fields are
     * merged over the current state.
     */
    method Hydrate(snapshot: Snapshot)
      modifies this
      ensures Partialize() == snapshot
    {
      venues := snapshot.venues;
      isLoaded := snapshot.isLoaded;
    }
  }
}
