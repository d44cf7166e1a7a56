/**
  The activity tracker: the set of event ids already handled and the last
  activity snapshot written to disk. The snapshot file itself is a parameter:
  what was read at start-up, and whether a write succeeds.
*/
module ActivityTracking {
  import opened PyValues
  import opened Records

  /** The ids (as Python set membership sees them) of the entries that have an `id` key, in any order. */
  function IdsOf(xs: seq<LogEntry>): set<Value> {
    if xs == [] then {}
    else IdsOf(xs[..|xs| - 1]) + (if xs[|xs| - 1].id.Some? then {Norm(xs[|xs| - 1].id.value)} else {})
  }

  /** A value is among the ids of `xs` exactly when some entry carries an `id` key equal to it. */
  lemma {:induction false} IdsOfMembers(xs: seq<LogEntry>, v: Value)
    ensures v in IdsOf(xs) <==> exists i :: 0 <= i < |xs| && xs[i].id.Some? && Norm(xs[i].id.value) == v
    decreases |xs|
  {
    if xs != [] {
      var ys := xs[..|xs| - 1];
      IdsOfMembers(ys, v);
      if v in IdsOf(ys) {
        var i :| 0 <= i < |ys| && ys[i].id.Some? && Norm(ys[i].id.value) == v;
        assert xs[i] == ys[i];
      }
      if exists i :: 0 <= i < |xs| && xs[i].id.Some? && Norm(xs[i].id.value) == v {
        var i :| 0 <= i < |xs| && xs[i].id.Some? && Norm(xs[i].id.value) == v;
        if i < |ys| {
          assert ys[i] == xs[i];
        }
      }
    }
  }

  /**
    Whether an entry counts as already processed against the id set `ids`:
    a missing or falsy id (None, 0, "", False) never does.
  */
  predicate ProcessedBy(ids: set<Value>, e: LogEntry) {
    var id := Get(e.id);
    Truthy(id) && Norm(id) in ids
  }

  /** After the ids of `xs` are added, every entry of `xs` with a truthy id reads as processed. */
  lemma SavedAreProcessed(ids: set<Value>, xs: seq<LogEntry>, i: nat)
    requires i < |xs| && Truthy(Get(xs[i].id))
    ensures ProcessedBy(ids + IdsOf(xs), xs[i])
  {
    IdsOfMembers(xs, Norm(xs[i].id.value));
  }

  /** Adding ids never makes a processed entry unprocessed. */
  lemma ProcessedMonotone(ids: set<Value>, more: set<Value>, e: LogEntry)
    requires ProcessedBy(ids, e)
    ensures ProcessedBy(ids + more, e)
  {
  }

  class ActivityTracker {
    var processedIds: set<Value>
    var lastActivity: seq<LogEntry>

    /**
      Start-up: `stored` is the snapshot read from disk, or `None` when there
      is no file or it could not be read as JSON.
    */
    constructor (stored: Option<seq<LogEntry>>)
      ensures stored.None? ==> lastActivity == [] && processedIds == {}
      ensures stored.Some? ==> lastActivity == stored.value && processedIds == IdsOf(stored.value)
    {
      var ids: set<Value> := {};
      var activity := if stored.Some? then stored.value else [];
      var i := 0;
      while i < |activity|
        invariant 0 <= i <= |activity|
        invariant ids == IdsOf(activity[..i])
      {
        assert activity[..i + 1][..i] == activity[..i];
        if activity[i].id.Some? {
          ids := ids + {Norm(activity[i].id.value)};
        }
        i := i + 1;
      }
      assert activity[..i] == activity;
      processedIds := ids;
      lastActivity := activity;
    }

    function IsEventProcessed(e: LogEntry): (r: bool)
      reads this
      ensures !Truthy(Get(e.id)) ==> !r
      ensures Truthy(Get(e.id)) ==> (r <==> Norm(e.id.value) in processedIds)
    {
      ProcessedBy(processedIds, e)
    }

    /**
      Writes `activity` as the new snapshot; `writeOk` is whether the file
      write succeeds. Only after a successful write are the snapshot and the
      id set updated.
    */
    method SaveActivity(activity: seq<LogEntry>, writeOk: bool) returns (ok: bool)
      modifies this
      ensures ok == writeOk
      ensures ok ==> lastActivity == activity && processedIds == old(processedIds) + IdsOf(activity)
      ensures !ok ==> lastActivity == old(lastActivity) && processedIds == old(processedIds)
      ensures old(processedIds) <= processedIds
    {
      if !writeOk {
        return false;
      }
      lastActivity := activity;
      var i := 0;
      while i < |activity|
        invariant 0 <= i <= |activity|
        invariant lastActivity == activity
        invariant processedIds == old(processedIds) + IdsOf(activity[..i])
      {
        assert activity[..i + 1][..i] == activity[..i];
        if activity[i].id.Some? {
          processedIds := processedIds + {Norm(activity[i].id.value)};
        }
        i := i + 1;
      }
      assert activity[..i] == activity;
      return true;
    }
  }
}
