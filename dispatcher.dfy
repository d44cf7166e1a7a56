/**
  The notification dispatcher of the application package: it filters events,
  sends single events at once or queues them for a digest, and hands each
  notification to every enabled channel service, recording failure without
  stopping. The channel services are a parameter (`Deliver`), so that a
  service which raises can be modelled; `ChannelDeliver` is the instance built
  from the e-mail and Telegram services of this model.
*/
module Dispatch {
  import opened PyValues
  import opened DateTimes
  import opened Records
  import opened Config
  import opened EventFilter
  import opened DigestOrder
  import EmailService
  import TelegramService

  datatype Channel = Email | Telegram

  /** What one call into a service does: return a success flag, or raise. */
  datatype Outcome = Returned(ok: bool) | Raised

  /** What is handed to the services: one event, or the sorted digest. */
  datatype Notification =
    | Single(subject: string, event: EventRecord)
    | Digest(subject: string, events: seq<EventRecord>)

  /** The services' behaviour: what `send_notification` / `send_digest` of a channel does with a notification. */
  type Deliver = (Channel, Notification) -> Outcome

  /** `_initialize_services`: e-mail for "email" and "both", then Telegram for "telegram" and "both". */
  function EnabledServices(notificationType: string): (r: seq<Channel>)
    ensures Email in r <==> notificationType == "email" || notificationType == "both"
    ensures Telegram in r <==> notificationType == "telegram" || notificationType == "both"
    ensures |r| <= 2 && (|r| == 2 ==> r == [Email, Telegram])
  {
    (if notificationType in ["email", "both"] then [Email] else [])
    + (if notificationType in ["telegram", "both"] then [Telegram] else [])
  }

  /** The subject of a single-event notification. */
  function SingleSubject(prefix: string, e: EventRecord): string {
    prefix + ": " + e.eventType + " by " + e.userName
  }

  /** The subject of a digest of `n` events. */
  function DigestSubject(prefix: string, n: nat): string {
    prefix + ": Activity Digest - " + NatToDecimal(n) + " events"
  }

  /** Every service in `services` returned true for `n`. */
  predicate AllSucceeded(services: seq<Channel>, deliver: Deliver, n: Notification) {
    forall k :: 0 <= k < |services| ==> deliver(services[k], n) == Returned(true)
  }

  /** The digest is due once at least `interval` seconds have passed since the last one. */
  predicate DigestDue(last: DateTime, now: DateTime, interval: int)
    requires Valid(last) && Valid(now)
  {
    Micros(now) - Micros(last) >= interval * 1000000
  }

  /** The e-mail and Telegram services of this model, which report failure by returning false. */
  function ChannelOutcome(s: Settings, smtp: EmailService.Smtp, post: TelegramService.Post,
                          ch: Channel, n: Notification): (o: Outcome)
    ensures o.Returned?
    ensures ch == Email && n.Single? ==> o.ok == EmailService.SendNotification(s.email, smtp, n.subject, n.event)
    ensures ch == Telegram && n.Single? ==> o.ok == TelegramService.SendNotification(s.telegram, post, n.subject, n.event)
  {
    match (ch, n)
    case (Email, Single(subject, e)) => Returned(EmailService.SendNotification(s.email, smtp, subject, e))
    case (Email, Digest(subject, es)) =>
      Returned(EmailService.SendEmail(s.email, smtp, subject, EmailService.DigestBody(s.email, es)))
    case (Telegram, Single(subject, e)) => Returned(TelegramService.SendNotification(s.telegram, post, subject, e))
    case (Telegram, Digest(subject, es)) =>
      Returned(TelegramService.SendTelegram(s.telegram, post, TelegramService.DigestTelegram(s.telegram.useEmoji, es)))
  }

  function ChannelDeliver(s: Settings, smtp: EmailService.Smtp, post: TelegramService.Post): Deliver {
    (ch, n) => ChannelOutcome(s, smtp, post, ch, n)
  }

  /**
    With the services of this model, a single event sent over both channels
    succeeds exactly when the e-mail and the Telegram sends both succeed.
  */
  lemma BothChannelsSingle(s: Settings, smtp: EmailService.Smtp, post: TelegramService.Post, subject: string, e: EventRecord)
    ensures AllSucceeded(EnabledServices("both"), ChannelDeliver(s, smtp, post), Single(subject, e)) <==>
      EmailService.SendNotification(s.email, smtp, subject, e) && TelegramService.SendNotification(s.telegram, post, subject, e)
  {
    var d := ChannelDeliver(s, smtp, post);
    assert EnabledServices("both") == [Email, Telegram];
    assert d(Email, Single(subject, e)) == ChannelOutcome(s, smtp, post, Email, Single(subject, e));
    assert d(Telegram, Single(subject, e)) == ChannelOutcome(s, smtp, post, Telegram, Single(subject, e));
  }

  class NotificationDispatcher {
    const settings: Settings
    const services: seq<Channel>
    var digestEvents: seq<EventRecord>
    var lastDigestTime: DateTime

    predicate Ready()
      reads this
    {
      Valid(lastDigestTime)
    }

    /** Start-up at time `now`: an empty queue and the enabled services. */
    constructor (s: Settings, now: DateTime)
      requires Valid(now)
      ensures settings == s && services == EnabledServices(s.notificationType)
      ensures digestEvents == [] && lastDigestTime == now
      ensures Ready()
    {
      settings := s;
      services := EnabledServices(s.notificationType);
      digestEvents := [];
      lastDigestTime := now;
    }

    /**
      `_dispatch_to_services`: every service is called once, in order, even
      after one has failed or raised; the result is true exactly when there
      is a service and all of them returned true. `calls` lists the services
      called.
    */
    method DispatchToServices(n: Notification, deliver: Deliver) returns (success: bool, calls: seq<Channel>)
      ensures calls == services
      ensures success <==> services != [] && AllSucceeded(services, deliver, n)
    {
      if services == [] {
        return false, [];
      }
      success := true;
      calls := [];
      for i := 0 to |services|
        invariant calls == services[..i]
        invariant success <==> AllSucceeded(services[..i], deliver, n)
      {
        var service := services[i];
        var outcome := deliver(service, n);
        calls := calls + [service];
        match outcome {
          case Raised =>
            success := false;
          case Returned(serviceSuccess) =>
            if !serviceSuccess {
              success := false;
            }
        }
        assert services[..i + 1] == services[..i] + [service];
      }
      assert services[..|services|] == services;
    }

    /**
      `send_notification`: a filtered event reaches no service and gives
      false; any other event is dispatched under its subject.
    */
    method SendNotification(e: EventRecord, deliver: Deliver) returns (success: bool, calls: seq<Channel>)
      ensures ShouldFilter(settings.filter, e) ==> !success && calls == []
      ensures !ShouldFilter(settings.filter, e) ==> calls == services
      ensures !ShouldFilter(settings.filter, e) ==>
        (success <==> services != [] && AllSucceeded(services, deliver, Single(SingleSubject(settings.subjectPrefix, e), e)))
    {
      if ShouldFilter(settings.filter, e) {
        return false, [];
      }
      var subject := SingleSubject(settings.subjectPrefix, e);
      success, calls := DispatchToServices(Single(subject, e), deliver);
    }

    /**
      `send_digest_notification` at time `now`. An empty queue gives true and
      changes nothing. A queued date that does not parse makes the sort raise
      before anything is sent, and the queue stays. Otherwise the queue,
      sorted newest first, goes to every service under the count subject,
      and then the queue is emptied and the timer reset whatever the services
      answered.
    */
    method SendDigestNotification(now: DateTime, deliver: Deliver) returns (r: Outcome, calls: seq<Channel>)
      requires Valid(now)
      modifies this
      ensures old(Ready()) ==> Ready()
      ensures old(digestEvents) == [] ==>
        r == Returned(true) && calls == [] && digestEvents == old(digestEvents) && lastDigestTime == old(lastDigestTime)
      ensures old(digestEvents) != [] && !AllDated(old(digestEvents)) ==>
        r == Raised && calls == [] && digestEvents == old(digestEvents) && lastDigestTime == old(lastDigestTime)
      ensures old(digestEvents) != [] && AllDated(old(digestEvents)) ==>
        var sorted := SortForDigest(old(digestEvents)).value;
        var n := Digest(DigestSubject(settings.subjectPrefix, |sorted|), sorted);
        r == Returned(services != [] && AllSucceeded(services, deliver, n))
        && calls == services && digestEvents == [] && lastDigestTime == now
    {
      if digestEvents == [] {
        return Returned(true), [];
      }
      var sortedEvents := SortForDigest(digestEvents);
      if sortedEvents.None? {
        return Raised, [];
      }
      var subject := DigestSubject(settings.subjectPrefix, |sortedEvents.value|);
      var success;
      success, calls := DispatchToServices(Digest(subject, sortedEvents.value), deliver);
      digestEvents := [];
      lastDigestTime := now;
      r := Returned(success);
    }

    /**
      `add_to_digest` at time `now`: a filtered event is dropped; any other
      event is queued, and when the digest interval has passed the queue is
      flushed (`flushed` is what the flush did, `None` when there was none).
    */
    method AddToDigest(e: EventRecord, now: DateTime, deliver: Deliver) returns (flushed: Option<Outcome>, calls: seq<Channel>)
      requires Valid(now) && Ready()
      modifies this
      ensures Ready()
      ensures ShouldFilter(settings.filter, e) ==>
        flushed.None? && calls == [] && digestEvents == old(digestEvents) && lastDigestTime == old(lastDigestTime)
      ensures !ShouldFilter(settings.filter, e) && !DigestDue(old(lastDigestTime), now, settings.digestInterval) ==>
        flushed.None? && calls == [] && digestEvents == old(digestEvents) + [e] && lastDigestTime == old(lastDigestTime)
      ensures !ShouldFilter(settings.filter, e) && DigestDue(old(lastDigestTime), now, settings.digestInterval) ==>
        var queue := old(digestEvents) + [e];
        flushed.Some?
        && (AllDated(queue) ==>
              var sorted := SortForDigest(queue).value;
              var n := Digest(DigestSubject(settings.subjectPrefix, |sorted|), sorted);
              flushed.value == Returned(services != [] && AllSucceeded(services, deliver, n))
              && calls == services && digestEvents == [] && lastDigestTime == now)
        && (!AllDated(queue) ==>
              flushed.value == Raised && calls == [] && digestEvents == queue && lastDigestTime == old(lastDigestTime))
    {
      if ShouldFilter(settings.filter, e) {
        return None, [];
      }
      digestEvents := digestEvents + [e];
      if DigestDue(lastDigestTime, now, settings.digestInterval) {
        var r;
        r, calls := SendDigestNotification(now, deliver);
        flushed := Some(r);
      } else {
        flushed := None;
        calls := [];
      }
    }
  }
}
