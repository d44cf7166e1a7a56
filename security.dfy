/**
  The security rule engine: it keeps the last hundred events, per-user lists
  of failed attempts and of access times, and raises alerts for repeated
  failures within a window, for access during the configured unusual hours
  and for rapid repeated access. Times are kept as microsecond instants
  (`Micros`), which is all the window comparisons use; the clock is the
  parameter `now`; the alert file is the `alerts` log.
*/
module Security {
  import opened PyValues
  import opened DateTimes

  /** The thresholds and windows (seconds) and the unusual hours. */
  datatype SecurityConfig = SecurityConfig(
    failedThreshold: int,
    failedWindow: int,
    unusualStart: int,
    unusualEnd: int,
    rapidThreshold: int,
    rapidWindow: int)

  /** The built-in settings, used when the configuration has no `[Security]` section. */
  const DefaultConfig := SecurityConfig(3, 300, 23, 6, 5, 60)

  /** An event as handed to the monitor; `None` is a key that is not present. */
  datatype SecEvent = SecEvent(id: Option<Value>, eventType: Option<string>, userName: Option<string>, date: Option<Value>)

  /** What an alert reports: a count within a window (seconds), or the time of day of the access. */
  datatype Finding =
    | FailedAttempts(count: nat, window: int)
    | UnusualHours(time: DateTime)
    | RapidAccess(count: nat, window: int)

  /** An entry of the alert log, stamped with the time it was raised; every alert is of high priority. */
  datatype Alert = Alert(finding: Finding, event: SecEvent, user: string, timestamp: DateTime)

  /** The alert's `type` field. */
  function TypeName(f: Finding): string {
    match f
    case FailedAttempts(_, _) => "failed_attempts"
    case UnusualHours(_) => "unusual_hours"
    case RapidAccess(_, _) => "rapid_access"
  }

  /** The alert's `message` field; a window is shown in whole minutes (`//`). */
  function Message(a: Alert): string
    requires a.finding.UnusualHours? ==> Valid(a.finding.time)
  {
    match a.finding
    case FailedAttempts(n, w) =>
      "Security Alert: Multiple failed access attempts detected for " + a.user + ". "
      + IntToDecimal(n) + " attempts in the last " + IntToDecimal(w / 60) + " minutes."
    case UnusualHours(d) =>
      "Security Notice: Access during unusual hours by " + a.user + ". "
      + "Time: " + Two(d.hour) + ":" + Two(d.minute) + ":" + Two(d.second)
    case RapidAccess(n, w) =>
      "Security Notice: Rapid multiple access events detected. "
      + IntToDecimal(n) + " events in the last " + IntToDecimal(w / 60) + " minutes by " + a.user + "."
  }

  const RecentCapacity := 100

  /** The last `n` elements of `s` (all of them when there are fewer). */
  function LastN<T>(s: seq<T>, n: nat): (r: seq<T>)
    ensures |r| <= n && |r| <= |s|
    ensures r == s[|s| - |r|..]
    ensures |s| <= n ==> r == s
  {
    if |s| <= n then s else s[|s| - n..]
  }

  /** Keeping the last `n` after every append is keeping the last `n` of everything appended. */
  lemma LastNSnoc<T>(s: seq<T>, n: nat, x: T)
    requires n > 0
    ensures LastN(LastN(s, n) + [x], n) == LastN(s + [x], n)
  {
    var r := LastN(s, n);
    if |s| >= n {
      assert |r| == n;
      assert (r + [x])[1..] == s[|s| - n + 1..] + [x];
      assert (s + [x])[|s| + 1 - n..] == s[|s| - n + 1..] + [x];
    }
  }

  /** `event.get('event_type', '').lower()`. */
  function Kind(e: SecEvent): string {
    Lower(if e.eventType.Some? then e.eventType.value else "")
  }

  /** `event.get('user_name', 'Unknown User')`. */
  function UserOf(e: SecEvent): string {
    if e.userName.Some? then e.userName.value else "Unknown User"
  }

  /** The event's date, or `now` when it is missing or does not parse. */
  function EventDate(e: SecEvent, now: DateTime): (d: DateTime)
    requires Valid(now)
    ensures Valid(d)
    ensures e.date.Some? && e.date.value.Str? && ParseStamp(e.date.value.s).Some? ==> d == ParseStamp(e.date.value.s).value
    ensures !(e.date.Some? && e.date.value.Str? && ParseStamp(e.date.value.s).Some?) ==> d == now
  {
    if e.date.Some? && e.date.value.Str? && ParseStamp(e.date.value.s).Some? then ParseStamp(e.date.value.s).value
    else now
  }

  /** `_is_failed_attempt`: the lower-cased type mentions a failure. */
  predicate IsFailedAttempt(e: SecEvent) {
    var t := Kind(e);
    Contains(t, "failed") || Contains(t, "denied") || Contains(t, "rejected") || Contains(t, "invalid")
  }

  /** `_is_unusual_hour`: within [start, end), wrapping past midnight when start > end. */
  predicate IsUnusualHour(start: int, end: int, hour: int) {
    if start > end then hour >= start || hour < end
    else hour >= start && hour < end
  }

  /** Equal bounds mark no hour as unusual. */
  lemma EmptyRangeNeverUnusual(h: int, hour: int)
    ensures !IsUnusualHour(h, h, hour)
  {
  }

  /** Swapping distinct bounds marks exactly the other hours: a wrapped range is the complement of the plain one. */
  lemma SwappedBoundsComplement(start: int, end: int, hour: int)
    requires start != end
    ensures IsUnusualHour(start, end, hour) <==> !IsUnusualHour(end, start, hour)
  {
  }

  /** Event types that are real access, and the ones tracked for rapid access. */
  predicate IsOpening(e: SecEvent) {
    Kind(e) in ["unlock", "unlatch"]
  }

  predicate IsAccess(e: SecEvent) {
    Kind(e) in ["unlock", "unlatch", "lock"]
  }

  /** The instants of `ds` less than `w` seconds before `t` (later ones included), in order. */
  function Within(ds: seq<int>, t: int, w: int): (r: seq<int>)
    ensures |r| <= |ds|
    ensures forall x :: x in r <==> x in ds && t - x < w * 1000000
  {
    if ds == [] then []
    else Within(ds[..|ds| - 1], t, w) + (if t - ds[|ds| - 1] < w * 1000000 then [ds[|ds| - 1]] else [])
  }

  /** A later instant only adds to the window count. */
  lemma WithinSnoc(ds: seq<int>, x: int, t: int, w: int)
    ensures |Within(ds + [x], t, w)| == |Within(ds, t, w)| + (if t - x < w * 1000000 then 1 else 0)
  {
    assert (ds + [x])[..|ds|] == ds;
  }

  /**
    The cleanup of one map: each list keeps the instants less than `w`
    seconds before `now`, and users left with none are dropped.
  */
  function Pruned(m: map<string, seq<int>>, now: int, w: int): (r: map<string, seq<int>>)
    ensures forall u :: u in r <==> u in m && Within(m[u], now, w) != []
    ensures forall u :: u in r ==> r[u] != [] && forall x :: x in r[u] ==> now - x < w * 1000000
  {
    map u | u in m && Within(m[u], now, w) != [] :: Within(m[u], now, w)
  }

  /** The list a user has so far (a `defaultdict` reads a missing user as empty). */
  function Prior(m: map<string, seq<int>>, u: string): seq<int> {
    if u in m then m[u] else []
  }

  /** The failed-attempts alert, raised when the user's failures in the window reach the threshold. */
  function FailedAlerts(c: SecurityConfig, e: SecEvent, user: string, failures: seq<int>, t: int, now: DateTime): (r: seq<Alert>)
    ensures |r| == (if |Within(failures, t, c.failedWindow)| >= c.failedThreshold then 1 else 0)
    ensures |r| == 1 ==> r[0] == Alert(FailedAttempts(|Within(failures, t, c.failedWindow)|, c.failedWindow), e, user, now)
  {
    var recent := Within(failures, t, c.failedWindow);
    if |recent| >= c.failedThreshold then [Alert(FailedAttempts(|recent|, c.failedWindow), e, user, now)] else []
  }

  /** The unusual-hours notice, raised only for an unlock or unlatch inside the unusual hours. */
  function UnusualAlerts(c: SecurityConfig, e: SecEvent, user: string, d: DateTime, now: DateTime): (r: seq<Alert>)
    ensures |r| == (if IsUnusualHour(c.unusualStart, c.unusualEnd, d.hour) && IsOpening(e) then 1 else 0)
    ensures |r| == 1 ==> r[0] == Alert(UnusualHours(d), e, user, now)
  {
    if IsUnusualHour(c.unusualStart, c.unusualEnd, d.hour) && IsOpening(e) then [Alert(UnusualHours(d), e, user, now)] else []
  }

  /** The rapid-access notice, raised when the user's accesses in the window reach the threshold. */
  function RapidAlerts(c: SecurityConfig, e: SecEvent, user: string, accesses: seq<int>, t: int, now: DateTime): (r: seq<Alert>)
    ensures |r| == (if |Within(accesses, t, c.rapidWindow)| >= c.rapidThreshold then 1 else 0)
    ensures |r| == 1 ==> r[0] == Alert(RapidAccess(|Within(accesses, t, c.rapidWindow)|, c.rapidWindow), e, user, now)
  {
    var recent := Within(accesses, t, c.rapidWindow);
    if |recent| >= c.rapidThreshold then [Alert(RapidAccess(|recent|, c.rapidWindow), e, user, now)] else []
  }

  /** The per-user lists after recording instant `t` for `user`. */
  function Recorded(m: map<string, seq<int>>, user: string, t: int): (r: map<string, seq<int>>)
    ensures r.Keys == m.Keys + {user}
    ensures r[user] == Prior(m, user) + [t]
    ensures forall u :: u in m && u != user ==> r[u] == m[u]
  {
    m[user := Prior(m, user) + [t]]
  }

  /** The failure lists after an event dated `t` by `user`, before the cleanup. */
  function FailedAfter(m: map<string, seq<int>>, e: SecEvent, user: string, t: int): (r: map<string, seq<int>>)
    ensures IsFailedAttempt(e) ==> r == Recorded(m, user, t)
    ensures !IsFailedAttempt(e) ==> r == m
  {
    if IsFailedAttempt(e) then Recorded(m, user, t) else m
  }

  /** The access lists after an event dated `t` by `user`, before the cleanup. */
  function AccessAfter(m: map<string, seq<int>>, e: SecEvent, user: string, t: int): (r: map<string, seq<int>>)
    ensures IsAccess(e) ==> r == Recorded(m, user, t)
    ensures !IsAccess(e) ==> r == m
  {
    if IsAccess(e) then Recorded(m, user, t) else m
  }

  /** Every alert in `alerts` is about event `e` by `user`. */
  predicate AllAbout(alerts: seq<Alert>, e: SecEvent, user: string) {
    forall k :: 0 <= k < |alerts| ==> alerts[k].user == user && alerts[k].event == e
  }

  lemma AllAboutAppend(a: seq<Alert>, b: seq<Alert>, e: SecEvent, user: string)
    requires AllAbout(a, e, user) && AllAbout(b, e, user)
    ensures AllAbout(a + b, e, user)
  {
    forall k | 0 <= k < |a + b|
      ensures (a + b)[k].user == user && (a + b)[k].event == e
    {
      if k >= |a| {
        assert (a + b)[k] == b[k - |a|];
      }
    }
  }

  /**
    The alerts one event raises, in the order the checks run, given the
    failure and access lists that include it.
  */
  function EventAlerts(c: SecurityConfig, e: SecEvent, user: string, d: DateTime, now: DateTime,
                       failed: map<string, seq<int>>, access: map<string, seq<int>>): (r: seq<Alert>)
    requires Valid(d) && Valid(now)
    requires IsFailedAttempt(e) ==> user in failed
    requires IsAccess(e) ==> user in access
    ensures |r| <= 3
    ensures AllAbout(r, e, user)
  {
    var fa := if IsFailedAttempt(e) then FailedAlerts(c, e, user, failed[user], Micros(d), now) else [];
    var ua := UnusualAlerts(c, e, user, d, now);
    var ra := if IsAccess(e) then RapidAlerts(c, e, user, access[user], Micros(d), now) else [];
    AllAboutAppend(fa, ua, e, user);
    AllAboutAppend(fa + ua, ra, e, user);
    fa + ua + ra
  }

  lemma AppendAssoc<T>(a: seq<T>, b: seq<T>, c: seq<T>, d: seq<T>)
    ensures a + b + c + d == a + (b + c + d)
  {
  }

  /** The cleanup loop: every user's list rebuilt, emptied users deleted. */
  method Prune(m: map<string, seq<int>>, now: int, w: int) returns (r: map<string, seq<int>>)
    ensures r == Pruned(m, now, w)
  {
    r := m;
    var users := m.Keys;
    while users != {}
      invariant users <= m.Keys
      invariant forall u :: u in r <==> u in m && (u in users || Within(m[u], now, w) != [])
      invariant forall u :: u in r ==> r[u] == (if u in users then m[u] else Within(m[u], now, w))
      decreases |users|
    {
      var user :| user in users;
      var kept := Within(r[user], now, w);
      r := r[user := kept];
      if kept == [] {
        r := r - {user};
      }
      users := users - {user};
    }
    assert r.Keys == Pruned(m, now, w).Keys;
  }

  class SecurityMonitor {
    const config: SecurityConfig
    var recentActivity: seq<SecEvent>
    ghost var history: seq<SecEvent>
    var failedAttempts: map<string, seq<int>>
    var accessEvents: map<string, seq<int>>
    var alerts: seq<Alert>

    /** The buffer holds the most recent events seen, at most a hundred of them. */
    ghost predicate Valid()
      reads this
    {
      recentActivity == LastN(history, RecentCapacity)
    }

    constructor (c: SecurityConfig)
      ensures config == c && recentActivity == [] && history == []
      ensures failedAttempts == map[] && accessEvents == map[] && alerts == []
      ensures Valid()
    {
      config := c;
      recentActivity := [];
      history := [];
      failedAttempts := map[];
      accessEvents := map[];
      alerts := [];
    }

    /** `_handle_failed_attempt`: record the failure, then alert when the window count reaches the threshold. */
    method HandleFailedAttempt(e: SecEvent, user: string, d: DateTime, now: DateTime)
      requires DateTimes.Valid(d) && DateTimes.Valid(now)
      modifies this`failedAttempts, this`alerts
      ensures failedAttempts == Recorded(old(failedAttempts), user, Micros(d))
      ensures alerts == old(alerts) + FailedAlerts(config, e, user, failedAttempts[user], Micros(d), now)
    {
      failedAttempts := Recorded(failedAttempts, user, Micros(d));
      var recentFailures := Within(failedAttempts[user], Micros(d), config.failedWindow);
      if |recentFailures| >= config.failedThreshold {
        TriggerAlert(FailedAttempts(|recentFailures|, config.failedWindow), e, user, now);
      }
    }

    /** `_handle_unusual_hour_access`: only an unlock or unlatch raises the notice. */
    method HandleUnusualHourAccess(e: SecEvent, user: string, d: DateTime, now: DateTime)
      requires DateTimes.Valid(d) && DateTimes.Valid(now) && IsUnusualHour(config.unusualStart, config.unusualEnd, d.hour)
      modifies this`alerts
      ensures alerts == old(alerts) + UnusualAlerts(config, e, user, d, now)
    {
      if Kind(e) in ["unlock", "unlatch"] {
        TriggerAlert(UnusualHours(d), e, user, now);
      }
    }

    /** `_track_access_event`: only unlock, unlatch and lock are recorded and counted. */
    method TrackAccessEvent(e: SecEvent, user: string, d: DateTime, now: DateTime)
      requires DateTimes.Valid(d) && DateTimes.Valid(now)
      modifies this`accessEvents, this`alerts
      ensures !IsAccess(e) ==> accessEvents == old(accessEvents) && alerts == old(alerts)
      ensures IsAccess(e) ==>
        accessEvents == Recorded(old(accessEvents), user, Micros(d))
        && alerts == old(alerts) + RapidAlerts(config, e, user, accessEvents[user], Micros(d), now)
    {
      if Kind(e) in ["unlock", "unlatch", "lock"] {
        accessEvents := Recorded(accessEvents, user, Micros(d));
        var recentAccess := Within(accessEvents[user], Micros(d), config.rapidWindow);
        if |recentAccess| >= config.rapidThreshold {
          TriggerAlert(RapidAccess(|recentAccess|, config.rapidWindow), e, user, now);
        }
      }
    }

    /** `_cleanup_old_entries` at time `now`: both maps keep only what is less than twice their window old. */
    method CleanupOldEntries(now: DateTime)
      requires DateTimes.Valid(now)
      modifies this`failedAttempts, this`accessEvents
      ensures failedAttempts == Pruned(old(failedAttempts), Micros(now), config.failedWindow * 2)
      ensures accessEvents == Pruned(old(accessEvents), Micros(now), config.rapidWindow * 2)
    {
      failedAttempts := Prune(failedAttempts, Micros(now), config.failedWindow * 2);
      accessEvents := Prune(accessEvents, Micros(now), config.rapidWindow * 2);
    }

    /** `_trigger_alert` at time `now`: the alert goes to the alerts log. */
    method TriggerAlert(f: Finding, e: SecEvent, user: string, now: DateTime)
      modifies this`alerts
      ensures alerts == old(alerts) + [Alert(f, e, user, now)]
    {
      alerts := alerts + [Alert(f, e, user, now)];
    }

    /**
      The three checks of `process_event` on an event dated `d` by `user`:
      a failed attempt, an unusual hour, rapid access.
    */
    method CheckEvent(e: SecEvent, user: string, d: DateTime, now: DateTime)
      requires DateTimes.Valid(d) && DateTimes.Valid(now)
      modifies this`failedAttempts, this`accessEvents, this`alerts
      ensures failedAttempts == FailedAfter(old(failedAttempts), e, user, Micros(d))
      ensures accessEvents == AccessAfter(old(accessEvents), e, user, Micros(d))
      ensures alerts == old(alerts) + EventAlerts(config, e, user, d, now, failedAttempts, accessEvents)
    {
      ghost var before := alerts;
      if IsFailedAttempt(e) {
        HandleFailedAttempt(e, user, d, now);
      }
      ghost var fa := if IsFailedAttempt(e) then FailedAlerts(config, e, user, failedAttempts[user], Micros(d), now) else [];
      assert alerts == before + fa;
      if IsUnusualHour(config.unusualStart, config.unusualEnd, d.hour) {
        HandleUnusualHourAccess(e, user, d, now);
      }
      ghost var ua := UnusualAlerts(config, e, user, d, now);
      assert alerts == before + fa + ua;
      TrackAccessEvent(e, user, d, now);
      ghost var ra := if IsAccess(e) then RapidAlerts(config, e, user, accessEvents[user], Micros(d), now) else [];
      assert alerts == before + fa + ua + ra;
      AppendAssoc(before, fa, ua, ra);
    }

    /** The checks, then the cleanup at `now`. */
    method Assess(e: SecEvent, user: string, d: DateTime, now: DateTime)
      requires DateTimes.Valid(d) && DateTimes.Valid(now)
      modifies this`failedAttempts, this`accessEvents, this`alerts
      ensures failedAttempts == Pruned(FailedAfter(old(failedAttempts), e, user, Micros(d)), Micros(now), config.failedWindow * 2)
      ensures accessEvents == Pruned(AccessAfter(old(accessEvents), e, user, Micros(d)), Micros(now), config.rapidWindow * 2)
      ensures alerts == old(alerts) + EventAlerts(config, e, user, d, now,
                                                  FailedAfter(old(failedAttempts), e, user, Micros(d)),
                                                  AccessAfter(old(accessEvents), e, user, Micros(d)))
    {
      CheckEvent(e, user, d, now);
      CleanupOldEntries(now);
    }

    /**
      `process_event` at time `now`: buffer the event, then check it, dated
      by its own date or by `now` when that is missing or unreadable.
    */
    method ProcessEvent(e: SecEvent, now: DateTime)
      requires DateTimes.Valid(now) && Valid()
      modifies this
      ensures Valid() && history == old(history) + [e]
      ensures recentActivity == LastN(old(recentActivity) + [e], RecentCapacity)
      ensures
        var d := EventDate(e, now);
        var user := UserOf(e);
        var failed := FailedAfter(old(failedAttempts), e, user, Micros(d));
        var access := AccessAfter(old(accessEvents), e, user, Micros(d));
        failedAttempts == Pruned(failed, Micros(now), config.failedWindow * 2)
        && accessEvents == Pruned(access, Micros(now), config.rapidWindow * 2)
        && alerts == old(alerts) + EventAlerts(config, e, user, d, now, failed, access)
    {
      LastNSnoc(history, RecentCapacity, e);
      if |recentActivity| == RecentCapacity {
        recentActivity := recentActivity[1..] + [e];
      } else {
        recentActivity := recentActivity + [e];
      }
      history := history + [e];
      Assess(e, UserOf(e), EventDate(e, now), now);
    }
  }
}
