/**
 * `PFQuery.findCachedOrNetwork`: answer a query from the objects pinned
 * under a name when there are some and they have not expired, otherwise
 * from the network, re-pinning a non-empty network answer under that name
 * and recording the name as freshly fetched.
 *
 * Parse's local datastore is a map from pin names to the objects pinned
 * under them. The pinned read and the network query are not run here:
 * `pinnedRead` and `networkRead` are the tasks they complete with, and
 * `expired` is the answer of the expiry check made on entry.
 */
module CachedQuery {
  import opened Foundation

  /** Parse's local datastore: objects pinned under names. */
  class LocalDatastore<T> {
    var pins: map<string, seq<T>>

    constructor ()
      ensures pins == map[]
    {
      pins := map[];
    }

    function Pinned(name: string): seq<T>
      reads this
    {
      if name in pins then pins[name] else []
    }

    /** `PFObject.unpinAllObjectsWithName(name)`. */
    method UnpinAllObjectsWithName(name: string)
      modifies this
      ensures pins == old(pins)[name := []]
    {
      pins := pins[name := []];
    }

    /** `PFObject.pinAll(objects, withName: name)`. */
    method PinAll(objects: seq<T>, name: string)
      modifies this
      ensures pins == old(pins)[name := old(Pinned(name)) + objects]
    {
      pins := pins[name := Pinned(name) + objects];
    }
  }

  /** What one call does: the task it returns, whether it queried the
      network, and the objects it re-pinned (if it re-pinned). */
  datatype Outcome<T> = Outcome(result: Task<seq<T>>, queriedNetwork: bool, repinned: Option<seq<T>>)

  /** The decision of `findCachedOrNetwork`, as a function of the expiry
      answer and the two reads. */
  function CachedOrNetwork<T>(expired: bool, pinnedRead: Task<seq<T>>, networkRead: Task<seq<T>>): Outcome<T>
  {
    match pinnedRead
    case Faulted(e) => Outcome(Faulted(e), false, None)
    case Done(None) => Outcome(Done(Some([])), false, None)
    case Done(Some(cached)) =>
      if |cached| == 0 || expired then
        match networkRead
        case Faulted(e) => Outcome(Faulted(e), true, None)
        case Done(None) => Outcome(Done(Some([])), true, None)
        case Done(Some(fetched)) =>
          if |fetched| != 0 then Outcome(Done(Some(fetched)), true, Some(fetched))
          else Outcome(Done(Some([])), true, None)
      else Outcome(Done(Some(cached)), false, None)
  }

  /** A fresh, non-empty pin is served as it is: no network query, nothing
      re-pinned. */
  lemma CacheHit<T>(pinnedRead: Task<seq<T>>, networkRead: Task<seq<T>>, cached: seq<T>)
    requires pinnedRead == Done(Some(cached)) && |cached| > 0
    ensures CachedOrNetwork(false, pinnedRead, networkRead) == Outcome(Done(Some(cached)), false, None)
  {
  }

  /** The network is queried exactly when the pinned read gave an array
      that is empty or expired. */
  lemma QueriesNetworkWhen<T>(expired: bool, pinnedRead: Task<seq<T>>, networkRead: Task<seq<T>>)
    ensures CachedOrNetwork(expired, pinnedRead, networkRead).queriedNetwork
        <==> pinnedRead.Done? && pinnedRead.result.Some? && (|pinnedRead.result.value| == 0 || expired)
  {
  }

  /** The pin is replaced exactly when the network was queried and answered
      a non-empty array, and then by that array, which is also returned. */
  lemma RepinsNetworkAnswer<T>(expired: bool, pinnedRead: Task<seq<T>>, networkRead: Task<seq<T>>)
    ensures var o := CachedOrNetwork(expired, pinnedRead, networkRead);
      o.repinned.Some? <==> o.queriedNetwork && networkRead.Done? && networkRead.result.Some?
                            && |networkRead.result.value| > 0
    ensures var o := CachedOrNetwork(expired, pinnedRead, networkRead);
      o.repinned.Some? ==> o.repinned == networkRead.result && o.result == Done(networkRead.result)
  {
  }

  /** The answer is never a mixture: it is the whole cached array, the whole
      network array, or empty; and an empty network answer yields an empty
      result even when an expired pin held objects. */
  lemma NeverMixes<T>(expired: bool, pinnedRead: Task<seq<T>>, networkRead: Task<seq<T>>)
    ensures var o := CachedOrNetwork(expired, pinnedRead, networkRead);
      o.result.Done? ==>
        || o.result == Done(Some([]))
        || (!o.queriedNetwork && o.result == pinnedRead)
        || (o.queriedNetwork && o.result == networkRead)
    ensures var o := CachedOrNetwork(expired, pinnedRead, networkRead);
      o.queriedNetwork && networkRead == Done(Some([])) ==> o.result == Done(Some([]))
    ensures pinnedRead == Done(None) ==>
      CachedOrNetwork(expired, pinnedRead, networkRead).result == Done(Some([]))
  {
  }

  /** `query.findCachedOrNetwork(pinName, expirationDays)`, with the expiry
      check's answer `expired` computed once on entry, and `now` the time
      `completedAction` records. */
  method FindCachedOrNetwork<T>(datastore: LocalDatastore<T>, defaults: UserDefaults, pinName: string,
                                expired: bool, pinnedRead: Task<seq<T>>, networkRead: Task<seq<T>>, now: Date)
    returns (r: Task<seq<T>>, queriedNetwork: bool)
    modifies datastore, defaults
    ensures var o := CachedOrNetwork(expired, pinnedRead, networkRead);
      r == o.result && queriedNetwork == o.queriedNetwork
    ensures var o := CachedOrNetwork(expired, pinnedRead, networkRead);
      datastore.pins == if o.repinned.Some? then old(datastore.pins)[pinName := o.repinned.value]
                        else old(datastore.pins)
    ensures var o := CachedOrNetwork(expired, pinnedRead, networkRead);
      defaults.completedActions == if o.repinned.Some? then old(defaults.completedActions)[pinName := now]
                                   else old(defaults.completedActions)
    ensures defaults.values == old(defaults.values)
  {
    var fetchResult: seq<T> := [];
    queriedNetwork := false;

    // First continuation: the pinned objects, or the network query.
    if pinnedRead.Faulted? {
      return pinnedRead, false;
    }
    var next: Task<seq<T>>;
    if pinnedRead.result.None? {
      next := Done(None);
    } else if |pinnedRead.result.value| == 0 || expired {
      queriedNetwork := true;
      next := networkRead;
    } else {
      fetchResult := fetchResult + pinnedRead.result.value;
      assert fetchResult == pinnedRead.result.value;
      next := Done(None);
    }

    // Second continuation: re-pin a non-empty network answer.
    if next.Faulted? {
      return next, queriedNetwork;
    }
    if next.result.Some? && |next.result.value| != 0 {
      var result := next.result.value;
      defaults.CompletedAction(pinName, now);
      datastore.UnpinAllObjectsWithName(pinName);
      datastore.PinAll(result, pinName);
      assert fetchResult == [];
      fetchResult := fetchResult + result;
      assert fetchResult == result;
    }
    r := Done(Some(fetchResult));
  }
}
