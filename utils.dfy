/**
 * The retained-name set the map-shaped adapters diff each payload against
 * (utils.ThreadSafeSet). Only what its call sites rely on is modelled: the
 * diff returns the names retained before and absent now, and the retained set
 * becomes the current one. The mutex around it is left out.
 */
module Utils {
  import opened Wrappers

  class ThreadSafeSet {
    var items: set<string>

    constructor ()
      ensures items == {}
    {
      items := {};
    }

    /**
     * DiffAndEmplace(current): every name that was retained and is not in
     * `current`, each exactly once, in some order; afterwards the retained set
     * is `current`.
     */
    method DiffAndEmplace(current: set<string>) returns (removed: seq<string>)
      modifies this
      ensures items == current
      ensures Elements(removed) == old(items) - current
      ensures Distinct(removed)
    {
      var todo := items - current;
      removed := [];
      while todo != {}
        invariant todo + Elements(removed) == old(items) - current
        invariant todo !! Elements(removed)
        invariant Distinct(removed)
        decreases todo
      {
        var x :| x in todo;
        removed := removed + [x];
        todo := todo - {x};
      }
      items := current;
    }
  }
}
