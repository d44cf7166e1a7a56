/**
  The exclusion rule both notifiers apply before sending or queueing an
  event: auto-lock suppression and the three exclusion lists.
*/
module EventFilter {
  import opened PyValues
  import opened Records
  import opened Config

  /** The checks in the order the notifiers make them; the first that applies filters the event. */
  predicate ShouldFilter(c: FilterConfig, e: EventRecord) {
    if e.userName == "Auto Lock" && !c.notifyAutoLock then true
    else if e.userName in c.excludedUsers then true
    else if e.action.Some? && Show(e.action.value) in c.excludedActions then true
    else if e.trigger.Some? && Show(e.trigger.value) in c.excludedTriggers then true
    else false
  }

  /** An event is filtered exactly when one of the four exclusion reasons applies, in any order. */
  lemma ShouldFilterReasons(c: FilterConfig, e: EventRecord)
    ensures ShouldFilter(c, e) <==>
      (e.userName == "Auto Lock" && !c.notifyAutoLock)
      || e.userName in c.excludedUsers
      || (e.action.Some? && Show(e.action.value) in c.excludedActions)
      || (e.trigger.Some? && Show(e.trigger.value) in c.excludedTriggers)
  {
  }

  /** `d` excludes at least what `c` excludes: every list only grows and auto-lock is not switched back on. */
  predicate Extends(d: FilterConfig, c: FilterConfig) {
    (c.notifyAutoLock || !d.notifyAutoLock)
    && (forall u :: u in c.excludedUsers ==> u in d.excludedUsers)
    && (forall a :: a in c.excludedActions ==> a in d.excludedActions)
    && (forall t :: t in c.excludedTriggers ==> t in d.excludedTriggers)
  }

  /** Tightening the configuration never lets a filtered event through. */
  lemma FilterMonotone(c: FilterConfig, d: FilterConfig, e: EventRecord)
    requires Extends(d, c) && ShouldFilter(c, e)
    ensures ShouldFilter(d, e)
  {
  }

  /** With no exclusions and auto-lock notifications on, nothing is filtered. */
  lemma NothingExcluded(e: EventRecord)
    ensures !ShouldFilter(FilterConfig(true, [], [], []), e)
  {
  }
}
