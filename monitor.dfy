/**
  The poll cycle of the lock monitor: on the first call it only seeds the
  activity history; on every later call it fetches the recent log of each
  lock, turns the entries the tracker has not seen (and whose date parses)
  into event records, saves each fetched log as the new snapshot, and only
  then hands the records, in discovery order, to the notifier, queued for
  the digest or sent at once. The lock cloud is a parameter (`Cloud`): its
  lock list, its logs, its user list, the timestamp reader and whether the
  snapshot file can be written.
*/
module Monitor {
  import opened PyValues
  import opened DateTimes
  import opened Records
  import opened Config
  import opened EventFilter
  import opened DigestOrder
  import opened ActivityTracking
  import opened NukiApi
  import EmailService
  import TelegramService
  import Dispatch
  import LegacyNotifier

  /** A lock as the smartlock endpoint lists it; `None` is a key that is not present. */
  datatype ApiLock = ApiLock(smartlockId: Option<Value>, name: Option<string>)

  /** `lock.get('name', 'Unknown Lock')`. */
  function LockName(l: ApiLock): string {
    if l.name.Some? then l.name.value else "Unknown Lock"
  }

  /**
    What the cloud and the disk answer during one poll: the account's
    locks, the last `limit` log entries of a lock, the account's users,
    the reader of millisecond timestamps, and whether snapshot writes
    succeed.
  */
  datatype Cloud = Cloud(
    smartlocks: seq<ApiLock>,
    logs: (Value, nat) -> seq<LogEntry>,
    users: seq<ApiUser>,
    fromTimestamp: string -> Option<DateTime>,
    canWrite: bool)

  /** Which locks a poll scans: none (an `AttributeError` was raised), none found, or these. */
  datatype LockChoice = Raised | NoLocks | Locks(locks: seq<ApiLock>)

  /** The configured fixed lock, stood in for the cloud's lock list. */
  const ConfiguredLockName := "Configured Lock"

  predicate ExplicitConfigured(s: Settings) {
    s.explicitLock.Some? && s.explicitLock.value.useExplicitId && Truthy(s.explicitLock.value.smartlockId)
  }

  /**
    The lock choice as written: it reads the `use_explicit_id` and
    `smartlock_id` attributes, which a configuration without them does not
    have, so such a configuration raises.
  */
  function LocksAsWritten(s: Settings, apiLocks: seq<ApiLock>): (r: LockChoice)
    ensures s.explicitLock.Some? ==> r != Raised
  {
    match s.explicitLock
    case None => Raised
    case Some(x) =>
      if x.useExplicitId && Truthy(x.smartlockId) then Locks([ApiLock(Some(x.smartlockId), Some(ConfiguredLockName))])
      else if apiLocks == [] then NoLocks
      else Locks(apiLocks)
  }

  /** Every configuration the loader produces lacks the attributes, so every poll raises before fetching anything. */
  lemma LoadedSettingsRaise(s: Settings, apiLocks: seq<ApiLock>)
    requires s.explicitLock == None
    ensures LocksAsWritten(s, apiLocks) == Raised
  {
  }

  /**
    The lock choice with missing attributes read as "no fixed lock": the
    fixed lock when one is configured, else the cloud's list, which must
    not be empty.
  */
  function SelectLocks(s: Settings, apiLocks: seq<ApiLock>): (r: LockChoice)
    ensures r != Raised
    ensures ExplicitConfigured(s) ==>
      r == Locks([ApiLock(Some(s.explicitLock.value.smartlockId), Some(ConfiguredLockName))])
    ensures !ExplicitConfigured(s) ==> (r == NoLocks <==> apiLocks == [])
    ensures !ExplicitConfigured(s) && apiLocks != [] ==> r == Locks(apiLocks)
  {
    if ExplicitConfigured(s) then Locks([ApiLock(Some(s.explicitLock.value.smartlockId), Some(ConfiguredLockName))])
    else if apiLocks == [] then NoLocks
    else Locks(apiLocks)
  }

  /** Where the attributes exist, the corrected choice is the written one. */
  lemma SelectLocksAgrees(s: Settings, apiLocks: seq<ApiLock>)
    requires s.explicitLock.Some?
    ensures SelectLocks(s, apiLocks) == LocksAsWritten(s, apiLocks)
  {
  }

  /** The user an entry is attributed to: trigger 6 is the auto lock, else the resolved auth id, else unknown. */
  function UserFor(e: LogEntry, users: seq<ApiUser>): (r: string)
    ensures Norm(Get(e.trigger)) == Int(6) ==> r == "Auto Lock"
    ensures Norm(Get(e.trigger)) != Int(6) && Truthy(Get(e.authId)) ==> r == UserName(Get(e.authId), users)
    ensures Norm(Get(e.trigger)) != Int(6) && !Truthy(Get(e.authId)) ==> r == "Unknown User"
  {
    if Norm(Get(e.trigger)) == Int(6) then "Auto Lock"
    else if Truthy(Get(e.authId)) then UserName(Get(e.authId), users)
    else "Unknown User"
  }

  /** The date an entry carries, as the client reads it. */
  function DateOf(e: LogEntry, cloud: Cloud): Option<DateTime> {
    ParseDate(Get(e.date), cloud.fromTimestamp)
  }

  /** The record for a log entry of `lock` dated `d`; its date always reads back for the digest sort. */
  function MakeRecord(lock: ApiLock, e: LogEntry, d: DateTime, users: seq<ApiUser>): (r: EventRecord)
    requires Valid(d)
    ensures Dated(r) && ParseStamp(r.date) == Some(d.(micro := 0))
    ensures r.lockName == LockName(lock) && r.lockId == Get(lock.smartlockId) && r.eventId == Get(e.id)
    ensures r.action == Some(Get(e.action)) && r.trigger == Some(Get(e.trigger))
    ensures r.userName == UserFor(e, users) && r.eventType == ActionDescription(e)
  {
    ParseFormat(d);
    EventRecord(LockName(lock), Get(lock.smartlockId), ActionDescription(e), Some(Get(e.action)), Some(Get(e.trigger)),
                UserFor(e, users), FormatStamp(d), Get(e.id))
  }

  /** The record an entry gives: one exactly when the entry is new to the id set and its date parses. */
  function RecordOf(lock: ApiLock, e: LogEntry, ids: set<Value>, cloud: Cloud): (r: Option<EventRecord>)
    ensures r.Some? <==> !ProcessedBy(ids, e) && DateOf(e, cloud).Some?
    ensures r.Some? ==> Dated(r.value) && r.value.userName == UserFor(e, cloud.users)
  {
    if !ProcessedBy(ids, e) && DateOf(e, cloud).Some? then Some(MakeRecord(lock, e, DateOf(e, cloud).value, cloud.users))
    else None
  }

  /** The results `f` gives for the elements of `xs`, in order, skipping the ones it gives none for. */
  function Collect<A, B>(f: A -> Option<B>, xs: seq<A>): seq<B> {
    if xs == [] then []
    else
      var o := f(xs[|xs| - 1]);
      Collect(f, xs[..|xs| - 1]) + (if o.Some? then [o.value] else [])
  }

  /** Every collected result is what `f` gives for some element. */
  lemma {:induction false} CollectSource<A, B>(f: A -> Option<B>, xs: seq<A>, y: B) returns (j: nat)
    requires y in Collect(f, xs)
    ensures j < |xs| && f(xs[j]) == Some(y)
    decreases |xs|
  {
    var init := xs[..|xs| - 1];
    if y in Collect(f, init) {
      j := CollectSource(f, init, y);
      assert xs[j] == init[j];
    } else {
      j := |xs| - 1;
    }
  }

  /** Every result `f` gives for an element is collected. */
  lemma {:induction false} CollectComplete<A, B>(f: A -> Option<B>, xs: seq<A>, j: nat)
    requires j < |xs| && f(xs[j]).Some?
    ensures f(xs[j]).value in Collect(f, xs)
    decreases |xs|
  {
    var init := xs[..|xs| - 1];
    if j < |init| {
      assert init[j] == xs[j];
      CollectComplete(f, init, j);
    }
  }

  /** The records one fetched log gives against the id set `ids`, in log order. */
  function NewRecords(lock: ApiLock, acts: seq<LogEntry>, ids: set<Value>, cloud: Cloud): seq<EventRecord> {
    Collect(e => RecordOf(lock, e, ids, cloud), acts)
  }

  /** Every record of a log comes from an entry of it that is new and dated: processed entries give nothing. */
  lemma NewRecordsSource(lock: ApiLock, acts: seq<LogEntry>, ids: set<Value>, cloud: Cloud, r: EventRecord)
    returns (j: nat)
    requires r in NewRecords(lock, acts, ids, cloud)
    ensures j < |acts| && RecordOf(lock, acts[j], ids, cloud) == Some(r)
    ensures !ProcessedBy(ids, acts[j]) && DateOf(acts[j], cloud).Some?
  {
    j := CollectSource(e => RecordOf(lock, e, ids, cloud), acts, r);
  }

  /** Every entry that is new and dated gives its record. */
  lemma NewRecordsComplete(lock: ApiLock, acts: seq<LogEntry>, ids: set<Value>, cloud: Cloud, j: nat)
    requires j < |acts| && !ProcessedBy(ids, acts[j]) && DateOf(acts[j], cloud).Some?
    ensures RecordOf(lock, acts[j], ids, cloud).value in NewRecords(lock, acts, ids, cloud)
  {
    CollectComplete(e => RecordOf(lock, e, ids, cloud), acts, j);
  }

  /** Every record of a log is dated, so a digest of them can always be sorted. */
  lemma NewRecordsDated(lock: ApiLock, acts: seq<LogEntry>, ids: set<Value>, cloud: Cloud)
    ensures AllDated(NewRecords(lock, acts, ids, cloud))
  {
    forall i | 0 <= i < |NewRecords(lock, acts, ids, cloud)|
      ensures Dated(NewRecords(lock, acts, ids, cloud)[i])
    {
      var j := NewRecordsSource(lock, acts, ids, cloud, NewRecords(lock, acts, ids, cloud)[i]);
    }
  }

  /** The tracker's state: the processed ids and the last saved snapshot. */
  datatype Track = Track(ids: set<Value>, last: seq<LogEntry>)

  /** `save_activity(acts)` on a tracker in state `t`: applied only when the write succeeds. */
  function Save(t: Track, acts: seq<LogEntry>, canWrite: bool): (r: Track)
    ensures t.ids <= r.ids
    ensures canWrite ==> r == Track(t.ids + IdsOf(acts), acts)
    ensures !canWrite ==> r == t
  {
    if canWrite then Track(t.ids + IdsOf(acts), acts) else t
  }

  /** The lock's log as fetched with the given limit. */
  function LogOf(lock: ApiLock, limit: nat, cloud: Cloud): seq<LogEntry> {
    cloud.logs(Get(lock.smartlockId), limit)
  }

  /** The tracker after scanning `locks` in order: each non-empty log is saved. */
  function TrackAfter(locks: seq<ApiLock>, limit: nat, t: Track, cloud: Cloud): Track {
    if locks == [] then t
    else
      var before := TrackAfter(locks[..|locks| - 1], limit, t, cloud);
      var acts := LogOf(locks[|locks| - 1], limit, cloud);
      if acts == [] then before else Save(before, acts, cloud.canWrite)
  }

  /** The records a poll of `locks` discovers, lock by lock, each log read against the ids saved so far. */
  function PollRecords(locks: seq<ApiLock>, t: Track, cloud: Cloud): seq<EventRecord> {
    if locks == [] then []
    else
      var init := locks[..|locks| - 1];
      var acts := LogOf(locks[|locks| - 1], 5, cloud);
      PollRecords(init, t, cloud)
      + (if acts == [] then [] else NewRecords(locks[|locks| - 1], acts, TrackAfter(init, 5, t, cloud).ids, cloud))
  }

  /** The processed ids only grow over a scan. */
  lemma {:induction false} TrackGrows(locks: seq<ApiLock>, limit: nat, t: Track, cloud: Cloud)
    ensures t.ids <= TrackAfter(locks, limit, t, cloud).ids
    decreases |locks|
  {
    if locks != [] {
      TrackGrows(locks[..|locks| - 1], limit, t, cloud);
    }
  }

  /**
    When snapshots can be written, every fetched entry with a truthy id is
    processed after the scan, whether or not it produced a record and
    whether or not the notifier will filter it.
  */
  lemma {:induction false} ScanMarksFetched(locks: seq<ApiLock>, limit: nat, t: Track, cloud: Cloud, k: nat, j: nat)
    requires cloud.canWrite && k < |locks|
    requires j < |LogOf(locks[k], limit, cloud)| && Truthy(Get(LogOf(locks[k], limit, cloud)[j].id))
    ensures ProcessedBy(TrackAfter(locks, limit, t, cloud).ids, LogOf(locks[k], limit, cloud)[j])
    decreases |locks|
  {
    var init := locks[..|locks| - 1];
    var before := TrackAfter(init, limit, t, cloud);
    var acts := LogOf(locks[|locks| - 1], limit, cloud);
    var e := LogOf(locks[k], limit, cloud)[j];
    if k == |locks| - 1 {
      SavedAreProcessed(before.ids, acts, j);
    } else {
      assert init[k] == locks[k];
      ScanMarksFetched(init, limit, t, cloud, k, j);
      if acts != [] {
        ProcessedMonotone(before.ids, IdsOf(acts), e);
      }
    }
  }

  /** Every record a poll discovers is dated. */
  lemma {:induction false} PollRecordsDated(locks: seq<ApiLock>, t: Track, cloud: Cloud)
    ensures AllDated(PollRecords(locks, t, cloud))
    decreases |locks|
  {
    if locks != [] {
      var init := locks[..|locks| - 1];
      PollRecordsDated(init, t, cloud);
      var acts := LogOf(locks[|locks| - 1], 5, cloud);
      if acts != [] {
        NewRecordsDated(locks[|locks| - 1], acts, TrackAfter(init, 5, t, cloud).ids, cloud);
      }
    }
  }

  /** The events of `es` the filter lets through, in order. */
  function Unfiltered(c: FilterConfig, es: seq<EventRecord>): (r: seq<EventRecord>)
    ensures |r| <= |es|
    ensures forall i :: 0 <= i < |r| ==> r[i] in es && !ShouldFilter(c, r[i])
  {
    if es == [] then []
    else Unfiltered(c, es[..|es| - 1]) + (if ShouldFilter(c, es[|es| - 1]) then [] else [es[|es| - 1]])
  }

  lemma AllDatedAppend(a: seq<EventRecord>, b: seq<EventRecord>)
    requires AllDated(a) && AllDated(b)
    ensures AllDated(a + b)
  {
    assert forall i :: |a| <= i < |a + b| ==> (a + b)[i] == b[i - |a|];
  }

  class NukiMonitor {
    const settings: Settings
    const tracker: ActivityTracker
    const notifier: LegacyNotifier.Notifier
    var firstRun: bool

    /** The notifier shares the monitor's settings and its queue only ever holds records the monitor made. */
    predicate Ready()
      reads this, notifier
    {
      notifier.settings == settings && notifier.Ready() && AllDated(notifier.digestEvents)
    }

    function TrackState(): Track
      reads this, tracker
    {
      Track(tracker.processedIds, tracker.lastActivity)
    }

    /** Start-up at time `now` over the snapshot `stored` read from disk. */
    constructor (s: Settings, stored: Option<seq<LogEntry>>, now: DateTime)
      requires Valid(now)
      ensures settings == s && firstRun
      ensures stored.None? ==> tracker.processedIds == {} && tracker.lastActivity == []
      ensures stored.Some? ==> tracker.processedIds == IdsOf(stored.value) && tracker.lastActivity == stored.value
      ensures notifier.digestEvents == [] && notifier.lastDigestTime == now
      ensures Ready()
    {
      settings := s;
      tracker := new ActivityTracker(stored);
      notifier := new LegacyNotifier.Notifier(s, now);
      firstRun := true;
    }

    /** The entries of one fetched log that are new, as records, in log order. */
    method CollectNew(lock: ApiLock, currentActivity: seq<LogEntry>, cloud: Cloud) returns (records: seq<EventRecord>)
      ensures records == NewRecords(lock, currentActivity, tracker.processedIds, cloud)
    {
      records := [];
      for j := 0 to |currentActivity|
        invariant records == NewRecords(lock, currentActivity[..j], tracker.processedIds, cloud)
      {
        var event := currentActivity[j];
        assert currentActivity[..j + 1][..j] == currentActivity[..j];
        if tracker.IsEventProcessed(event) {
          continue;
        }
        var date := ParseDate(Get(event.date), cloud.fromTimestamp);
        if date.None? {
          continue;
        }
        var actionDescription := ActionDescription(event);
        var userName := "Auto Lock";
        if Norm(Get(event.trigger)) == Int(6) {
          userName := "Auto Lock";
        } else {
          userName := if Truthy(Get(event.authId)) then UserName(Get(event.authId), cloud.users) else "Unknown User";
        }
        var record := EventRecord(LockName(lock), Get(lock.smartlockId), actionDescription,
          Some(Get(event.action)), Some(Get(event.trigger)), userName, FormatStamp(date.value), Get(event.id));
        records := records + [record];
      }
      assert currentActivity[..|currentActivity|] == currentActivity;
    }

    /** The scan of a poll: for each lock, collect its new records, then save its log. */
    method ScanLocks(locks: seq<ApiLock>, cloud: Cloud) returns (newEvents: seq<EventRecord>)
      modifies tracker
      ensures TrackState() == TrackAfter(locks, 5, old(TrackState()), cloud)
      ensures newEvents == PollRecords(locks, old(TrackState()), cloud)
    {
      newEvents := [];
      for i := 0 to |locks|
        invariant TrackState() == TrackAfter(locks[..i], 5, old(TrackState()), cloud)
        invariant newEvents == PollRecords(locks[..i], old(TrackState()), cloud)
      {
        var lock := locks[i];
        var lockId := Get(lock.smartlockId);
        var currentActivity := cloud.logs(lockId, 5);
        assert locks[..i + 1][..i] == locks[..i];
        if currentActivity == [] {
          continue;
        }
        var records := CollectNew(lock, currentActivity, cloud);
        newEvents := newEvents + records;
        var saved := tracker.SaveActivity(currentActivity, cloud.canWrite);
      }
      assert locks[..|locks|] == locks;
    }

    /** `initialize_history`: save the longer log of every lock, notifying nothing. */
    method InitializeHistory(cloud: Cloud) returns (ok: bool)
      modifies tracker
      ensures SelectLocks(settings, cloud.smartlocks) == NoLocks ==> !ok && TrackState() == old(TrackState())
      ensures SelectLocks(settings, cloud.smartlocks).Locks? ==>
        ok && TrackState() == TrackAfter(SelectLocks(settings, cloud.smartlocks).locks, 20, old(TrackState()), cloud)
    {
      var choice := SelectLocks(settings, cloud.smartlocks);
      if choice.NoLocks? {
        return false;
      }
      var locks := choice.locks;
      for i := 0 to |locks|
        invariant TrackState() == TrackAfter(locks[..i], 20, old(TrackState()), cloud)
      {
        var lock := locks[i];
        var lockId := Get(lock.smartlockId);
        var currentActivity := cloud.logs(lockId, 20);
        assert locks[..i + 1][..i] == locks[..i];
        if currentActivity == [] {
          continue;
        }
        var saved := tracker.SaveActivity(currentActivity, cloud.canWrite);
      }
      assert locks[..|locks|] == locks;
      return true;
    }

    /**
      Hands the poll's records to the notifier in order: queued for the
      digest in digest mode, else sent at once. Before the digest is due,
      the queue grows by exactly the records the filter lets through.
    */
    method Deliver(newEvents: seq<EventRecord>, now: DateTime, smtp: EmailService.Smtp, post: TelegramService.Post)
      requires Valid(now) && Ready() && AllDated(newEvents)
      modifies notifier
      ensures Ready()
      ensures !settings.digestMode ==>
        notifier.digestEvents == old(notifier.digestEvents) && notifier.lastDigestTime == old(notifier.lastDigestTime)
      ensures settings.digestMode && !Dispatch.DigestDue(old(notifier.lastDigestTime), now, settings.digestInterval) ==>
        notifier.digestEvents == old(notifier.digestEvents) + Unfiltered(settings.filter, newEvents)
        && notifier.lastDigestTime == old(notifier.lastDigestTime)
    {
      if settings.digestMode {
        for i := 0 to |newEvents|
          invariant Ready()
          invariant !Dispatch.DigestDue(old(notifier.lastDigestTime), now, settings.digestInterval) ==>
            notifier.digestEvents == old(notifier.digestEvents) + Unfiltered(settings.filter, newEvents[..i])
            && notifier.lastDigestTime == old(notifier.lastDigestTime)
        {
          var event := newEvents[i];
          assert newEvents[..i + 1][..i] == newEvents[..i];
          ghost var queue := notifier.digestEvents;
          AllDatedAppend(queue, [event]);
          var flushed, sent := notifier.AddToDigest(event, now, smtp, post);
        }
        assert newEvents[..|newEvents|] == newEvents;
      } else {
        for i := 0 to |newEvents|
          invariant notifier.digestEvents == old(notifier.digestEvents)
          invariant notifier.lastDigestTime == old(notifier.lastDigestTime)
        {
          var success, sent := notifier.SendNotification(newEvents[i], smtp, post);
        }
      }
    }

    /**
      `check_new_activity` at time `now`. The first call only seeds the
      history and returns true. Later calls return false when no lock is
      found; otherwise they scan every lock (saving each log, so even
      entries the notifier will filter count as processed afterwards) and
      then deliver the discovered records.
    */
    method CheckNewActivity(now: DateTime, cloud: Cloud, smtp: EmailService.Smtp, post: TelegramService.Post)
      returns (ok: bool, notified: seq<EventRecord>)
      requires Valid(now) && Ready()
      modifies this, tracker, notifier
      ensures Ready() && !firstRun
      ensures old(firstRun) ==>
        ok && notified == []
        && notifier.digestEvents == old(notifier.digestEvents) && notifier.lastDigestTime == old(notifier.lastDigestTime)
        && (SelectLocks(settings, cloud.smartlocks).Locks? ==>
              TrackState() == TrackAfter(SelectLocks(settings, cloud.smartlocks).locks, 20, old(TrackState()), cloud))
        && (SelectLocks(settings, cloud.smartlocks) == NoLocks ==> TrackState() == old(TrackState()))
      ensures !old(firstRun) && SelectLocks(settings, cloud.smartlocks) == NoLocks ==>
        !ok && notified == [] && TrackState() == old(TrackState())
        && notifier.digestEvents == old(notifier.digestEvents) && notifier.lastDigestTime == old(notifier.lastDigestTime)
      ensures !old(firstRun) && SelectLocks(settings, cloud.smartlocks).Locks? ==>
        var locks := SelectLocks(settings, cloud.smartlocks).locks;
        ok && TrackState() == TrackAfter(locks, 5, old(TrackState()), cloud)
        && notified == PollRecords(locks, old(TrackState()), cloud)
        && (!settings.digestMode ==>
              notifier.digestEvents == old(notifier.digestEvents) && notifier.lastDigestTime == old(notifier.lastDigestTime))
        && (settings.digestMode && !Dispatch.DigestDue(old(notifier.lastDigestTime), now, settings.digestInterval) ==>
              notifier.digestEvents == old(notifier.digestEvents) + Unfiltered(settings.filter, notified)
              && notifier.lastDigestTime == old(notifier.lastDigestTime))
    {
      if firstRun {
        var seeded := InitializeHistory(cloud);
        firstRun := false;
        return true, [];
      }
      var choice := SelectLocks(settings, cloud.smartlocks);
      if choice.NoLocks? {
        return false, [];
      }
      var newEvents := ScanLocks(choice.locks, cloud);
      PollRecordsDated(choice.locks, old(TrackState()), cloud);
      Deliver(newEvents, now, smtp, post);
      return true, newEvents;
    }
  }
}
