/**
  The all-in-one notifier the poll cycle uses. It applies the same filter and
  builds the same e-mail bodies and single Telegram messages as the channel
  services, but sends directly: e-mail first and then Telegram, each only
  when selected, with the result the conjunction of the sends made. Its
  e-mail send has no credential check, an empty digest flush returns
  nothing, and its digest Telegram message leaves out the clock emoji.
*/
module LegacyNotifier {
  import opened PyValues
  import opened DateTimes
  import opened Records
  import opened Config
  import opened EventFilter
  import opened DigestOrder
  import EmailService
  import TelegramService
  import Dispatch

  /** What `send_digest_notification` does: return None, return a flag, or raise. */
  datatype DigestResult = ReturnedNone | ReturnedBool(ok: bool) | Raised

  predicate EmailSelected(notificationType: string) {
    notificationType in ["email", "both"]
  }

  predicate TelegramSelected(notificationType: string) {
    notificationType in ["telegram", "both"]
  }

  /** The channels a send goes to, in the order they are tried. */
  function Selected(notificationType: string): (r: seq<Dispatch.Channel>)
    ensures r == Dispatch.EnabledServices(notificationType)
  {
    (if EmailSelected(notificationType) then [Dispatch.Email] else [])
    + (if TelegramSelected(notificationType) then [Dispatch.Telegram] else [])
  }

  /** `send_email`: straight to SMTP, without checking the credentials first. */
  function SendEmail(c: EmailSettings, smtp: EmailService.Smtp, subject: string, body: EmailService.EmailBody): (ok: bool)
    ensures ok == smtp(c, subject, body)
  {
    smtp(c, subject, body)
  }

  /** The digest block of one event: the clock emoji is chosen but never placed. */
  function LegacyDigestBlock(useEmoji: bool, e: EventRecord): (b: seq<string>)
    ensures |b| == 4
  {
    var lockEmoji := if useEmoji then TelegramService.Padlock + " " else "";
    var userEmoji := if useEmoji then TelegramService.Person + " " else "";
    var triggerEmoji := if useEmoji then TelegramService.Phone + " " else "";
    [TelegramService.Bullet + " " + e.date + " - " + e.lockName,
     "  " + lockEmoji + e.eventType + " by " + userEmoji + e.userName,
     "  " + triggerEmoji + "Trigger: " + TriggerDescription(e),
     ""]
  }

  function LegacyBlocks(useEmoji: bool): EventRecord -> seq<string> {
    e => LegacyDigestBlock(useEmoji, e)
  }

  /** `_build_digest_telegram` of the notifier: the same header, then one block per event in the order given. */
  function LegacyDigestTelegram(useEmoji: bool, events: seq<EventRecord>): string {
    Lines(TelegramService.DigestHeader(useEmoji) + Blocks(LegacyBlocks(useEmoji), events))
  }

  lemma LegacyBlockStep(lines: seq<string>, useEmoji: bool, e: EventRecord, triggerDesc: string,
                        lockEmoji: string, userEmoji: string, triggerEmoji: string)
    requires triggerDesc == TriggerDescription(e)
    requires lockEmoji == (if useEmoji then TelegramService.Padlock + " " else "")
    requires userEmoji == (if useEmoji then TelegramService.Person + " " else "")
    requires triggerEmoji == (if useEmoji then TelegramService.Phone + " " else "")
    ensures Lines(lines + LegacyBlocks(useEmoji)(e)) ==
      Lines(lines)
      + (TelegramService.Bullet + " " + e.date + " - " + e.lockName + "\n")
      + ("  " + lockEmoji + e.eventType + " by " + userEmoji + e.userName + "\n")
      + ("  " + triggerEmoji + "Trigger: " + triggerDesc + "\n\n")
  {
    var b := LegacyBlocks(useEmoji)(e);
    LinesSnoc(lines, b[0]); assert lines + [b[0]] == lines + b[..1];
    LinesSnoc(lines + b[..1], b[1]); assert lines + b[..1] + [b[1]] == lines + b[..2];
    LinesSnocBlank(lines + b[..2], b[2]); assert lines + b[..2] + [b[2], ""] == lines + b;
  }

  /** The notifier's `_build_digest_telegram`, growing the message event by event. */
  method BuildLegacyDigestTelegram(useEmoji: bool, events: seq<EventRecord>) returns (msg: string)
    ensures msg == LegacyDigestTelegram(useEmoji, events)
  {
    var emojiPrefix := if useEmoji then TelegramService.Bell + " " else "";
    msg := emojiPrefix + "*Nuki Lock Activity Digest*" + "\n\n";
    TelegramService.HeaderText(useEmoji);
    ghost var h := TelegramService.DigestHeader(useEmoji);
    ghost var f := LegacyBlocks(useEmoji);
    assert h + Blocks(f, events[..0]) == h;
    for i := 0 to |events|
      invariant msg == Lines(h + Blocks(f, events[..i]))
    {
      var event := events[i];
      var triggerDesc := TriggerDescription(event);
      var lockEmoji := if useEmoji then TelegramService.Padlock + " " else "";
      var userEmoji := if useEmoji then TelegramService.Person + " " else "";
      var timeEmoji := if useEmoji then TelegramService.Clock + " " else "";
      var triggerEmoji := if useEmoji then TelegramService.Phone + " " else "";
      LegacyBlockStep(h + Blocks(f, events[..i]), useEmoji, event, triggerDesc, lockEmoji, userEmoji, triggerEmoji);
      BlocksStep(f, events, i);
      assert h + Blocks(f, events[..i + 1]) == h + Blocks(f, events[..i]) + f(event);
      msg := msg + (TelegramService.Bullet + " " + event.date + " - " + event.lockName + "\n");
      msg := msg + ("  " + lockEmoji + event.eventType + " by " + userEmoji + event.userName + "\n");
      msg := msg + ("  " + triggerEmoji + "Trigger: " + triggerDesc + "\n\n");
    }
    assert events[..|events|] == events;
  }

  /** Without emoji the notifier's digest message is the Telegram service's. */
  lemma PlainDigestTelegramAgrees(events: seq<EventRecord>)
    ensures LegacyDigestTelegram(false, events) == TelegramService.DigestTelegram(false, events)
  {
    forall k | 0 <= k < |events|
      ensures LegacyBlocks(false)(events[k]) == TelegramService.DigestBlock(false)(events[k])
    {
      var e := events[k];
      assert LegacyBlocks(false)(e) == LegacyDigestBlock(false, e);
      assert TelegramService.DigestBlock(false)(e) == TelegramService.PlainDigestBlock(e);
      var a := "  " + e.eventType + " by ";
      assert a + "" == a;
      assert "  " + "" == "  ";
      assert LegacyDigestBlock(false, e)[1] == TelegramService.PlainDigestBlock(e)[1];
      assert LegacyDigestBlock(false, e)[2] == TelegramService.PlainDigestBlock(e)[2];
    }
    BlocksAgree(LegacyBlocks(false), TelegramService.DigestBlock(false), events);
  }

  lemma LinesOfFour(a: string, b: string, c: string, d: string)
    ensures |Lines([a, b, c, d])| == |a| + |b| + |c| + |d| + 4
  {
    LinesSnoc([], a); assert [] + [a] == [a];
    LinesSnoc([a], b); assert [a] + [b] == [a, b];
    LinesSnoc([a, b], c); assert [a, b] + [c] == [a, b, c];
    LinesSnoc([a, b, c], d); assert [a, b, c] + [d] == [a, b, c, d];
  }

  lemma EmojiBlockLonger(e: EventRecord)
    ensures |Lines(TelegramService.DigestBlock(true)(e))| == |Lines(LegacyBlocks(true)(e))| + 2
  {
    var x, y := TelegramService.DigestBlock(true)(e), LegacyBlocks(true)(e);
    LinesOfFour(x[0], x[1], x[2], x[3]);
    assert x == [x[0], x[1], x[2], x[3]];
    LinesOfFour(y[0], y[1], y[2], y[3]);
    assert y == [y[0], y[1], y[2], y[3]];
  }

  lemma LinesLastBlock(h: seq<string>, f: EventRecord -> seq<string>, events: seq<EventRecord>)
    requires events != []
    ensures Lines(h + Blocks(f, events)) == Lines(h + Blocks(f, events[..|events| - 1])) + Lines(f(events[|events| - 1]))
  {
    var init, last := events[..|events| - 1], events[|events| - 1];
    assert h + Blocks(f, events) == (h + Blocks(f, init)) + f(last);
    LinesAppend(h + Blocks(f, init), f(last));
  }

  lemma {:induction false} EmojiDigestLonger(events: seq<EventRecord>)
    ensures |TelegramService.DigestTelegram(true, events)| == |LegacyDigestTelegram(true, events)| + 2 * |events|
    decreases |events|
  {
    var h := TelegramService.DigestHeader(true);
    var f, g := TelegramService.DigestBlock(true), LegacyBlocks(true);
    if events == [] {
      assert Blocks(f, events) == [] && Blocks(g, events) == [];
    } else {
      var init, last := events[..|events| - 1], events[|events| - 1];
      EmojiDigestLonger(init);
      LinesLastBlock(h, f, events);
      LinesLastBlock(h, g, events);
      EmojiBlockLonger(last);
    }
  }

  /** With emoji and at least one event, the notifier's digest differs from the Telegram service's (no clock emoji). */
  lemma EmojiDigestTelegramDiffers(events: seq<EventRecord>)
    requires events != []
    ensures LegacyDigestTelegram(true, events) != TelegramService.DigestTelegram(true, events)
  {
    EmojiDigestLonger(events);
  }

  class Notifier {
    const settings: Settings
    var digestEvents: seq<EventRecord>
    var lastDigestTime: DateTime

    predicate Ready()
      reads this
    {
      Valid(lastDigestTime)
    }

    constructor (s: Settings, now: DateTime)
      requires Valid(now)
      ensures settings == s && digestEvents == [] && lastDigestTime == now
      ensures Ready()
    {
      settings := s;
      digestEvents := [];
      lastDigestTime := now;
    }

    /**
      The sending step both notification paths share: the mail when e-mail
      is selected, then the Telegram message when Telegram is selected, even
      after the mail failed; true when every send made succeeded.
    */
    method SendSelected(subject: string, emailBody: EmailService.EmailBody, telegramMsg: string,
                        smtp: EmailService.Smtp, post: TelegramService.Post)
      returns (success: bool, sent: seq<Dispatch.Channel>)
      ensures sent == Selected(settings.notificationType)
      ensures success == (
        (EmailSelected(settings.notificationType) ==> smtp(settings.email, subject, emailBody))
        && (TelegramSelected(settings.notificationType) ==> TelegramService.SendTelegram(settings.telegram, post, telegramMsg)))
    {
      success := true;
      sent := [];
      if EmailSelected(settings.notificationType) {
        var emailSuccess := SendEmail(settings.email, smtp, subject, emailBody);
        success := success && emailSuccess;
        sent := sent + [Dispatch.Email];
      }
      if TelegramSelected(settings.notificationType) {
        var telegramSuccess := TelegramService.SendTelegram(settings.telegram, post, telegramMsg);
        success := success && telegramSuccess;
        sent := sent + [Dispatch.Telegram];
      }
    }

    /**
      `send_notification`: a filtered event is not sent and gives false.
      Otherwise the mail goes out when e-mail is selected and the Telegram
      message when Telegram is selected, the second even after the first
      failed; the result is true when every send made succeeded, and so true
      when neither channel is selected. `sent` lists the channels tried.
    */
    method SendNotification(e: EventRecord, smtp: EmailService.Smtp, post: TelegramService.Post)
      returns (success: bool, sent: seq<Dispatch.Channel>)
      ensures ShouldFilter(settings.filter, e) ==> !success && sent == []
      ensures !ShouldFilter(settings.filter, e) ==> sent == Selected(settings.notificationType)
      ensures !ShouldFilter(settings.filter, e) ==>
        var subject := Dispatch.SingleSubject(settings.subjectPrefix, e);
        success == (
          (EmailSelected(settings.notificationType) ==>
             smtp(settings.email, subject, EmailService.SingleBody(settings.email, e)))
          && (TelegramSelected(settings.notificationType) ==>
             TelegramService.SendTelegram(settings.telegram, post, TelegramService.SingleTelegram(settings.telegram, e))))
    {
      if ShouldFilter(settings.filter, e) {
        return false, [];
      }
      var subject := Dispatch.SingleSubject(settings.subjectPrefix, e);
      var emailBody := EmailService.SingleBody(settings.email, e);
      var telegramMsg := TelegramService.SingleTelegram(settings.telegram, e);
      success, sent := SendSelected(subject, emailBody, telegramMsg, smtp, post);
    }

    /** `_build_digest_email`: the plain digest text unless HTML mail is switched on. */
    method BuildDigestEmail(events: seq<EventRecord>) returns (body: EmailService.EmailBody)
      ensures body == EmailService.DigestBody(settings.email, events)
    {
      if !settings.email.useHtml {
        var text := EmailService.BuildDigestPlainEmail(events);
        return EmailService.PlainText(text);
      }
      return EmailService.HtmlDigest(events);
    }

    /**
      `send_digest_notification` at time `now`. An empty queue returns None
      and changes nothing; an undated entry makes the sort raise and the
      queue stays. Otherwise both messages are built from the queue sorted
      newest first, sent as for a single event under the count subject, and
      the queue is emptied and the timer reset whatever the sends returned.
    */
    method SendDigestNotification(now: DateTime, smtp: EmailService.Smtp, post: TelegramService.Post)
      returns (r: DigestResult, sent: seq<Dispatch.Channel>)
      requires Valid(now)
      modifies this
      ensures old(Ready()) ==> Ready()
      ensures old(digestEvents) == [] ==>
        r == ReturnedNone && sent == [] && digestEvents == old(digestEvents) && lastDigestTime == old(lastDigestTime)
      ensures old(digestEvents) != [] && !AllDated(old(digestEvents)) ==>
        r == Raised && sent == [] && digestEvents == old(digestEvents) && lastDigestTime == old(lastDigestTime)
      ensures old(digestEvents) != [] && AllDated(old(digestEvents)) ==>
        var sorted := SortForDigest(old(digestEvents)).value;
        var subject := Dispatch.DigestSubject(settings.subjectPrefix, |old(digestEvents)|);
        r == ReturnedBool(
          (EmailSelected(settings.notificationType) ==>
             smtp(settings.email, subject, EmailService.DigestBody(settings.email, sorted)))
          && (TelegramSelected(settings.notificationType) ==>
             TelegramService.SendTelegram(settings.telegram, post, LegacyDigestTelegram(settings.telegram.useEmoji, sorted))))
        && sent == Selected(settings.notificationType)
        && digestEvents == [] && lastDigestTime == now
    {
      if digestEvents == [] {
        return ReturnedNone, [];
      }
      var subject := Dispatch.DigestSubject(settings.subjectPrefix, |digestEvents|);
      var sortedEvents := SortForDigest(digestEvents);
      if sortedEvents.None? {
        return Raised, [];
      }
      var sorted := sortedEvents.value;
      var emailBody := BuildDigestEmail(sorted);
      var telegramMsg := BuildLegacyDigestTelegram(settings.telegram.useEmoji, sorted);
      var success;
      success, sent := SendSelected(subject, emailBody, telegramMsg, smtp, post);
      digestEvents := [];
      lastDigestTime := now;
      r := ReturnedBool(success);
    }

    /**
      `add_to_digest` at time `now`: a filtered event is dropped; any other
      event is queued, and once the digest interval has passed the queue is
      flushed (`flushed` is what the flush did, `None` when there was none).
    */
    method AddToDigest(e: EventRecord, now: DateTime, smtp: EmailService.Smtp, post: TelegramService.Post)
      returns (flushed: Option<DigestResult>, sent: seq<Dispatch.Channel>)
      requires Valid(now) && Ready()
      modifies this
      ensures Ready()
      ensures ShouldFilter(settings.filter, e) ==>
        flushed.None? && sent == [] && digestEvents == old(digestEvents) && lastDigestTime == old(lastDigestTime)
      ensures !ShouldFilter(settings.filter, e) && !Dispatch.DigestDue(old(lastDigestTime), now, settings.digestInterval) ==>
        flushed.None? && sent == [] && digestEvents == old(digestEvents) + [e] && lastDigestTime == old(lastDigestTime)
      ensures !ShouldFilter(settings.filter, e) && Dispatch.DigestDue(old(lastDigestTime), now, settings.digestInterval) ==>
        var queue := old(digestEvents) + [e];
        flushed.Some? && flushed.value != ReturnedNone
        && (AllDated(queue) ==> flushed.value.ReturnedBool? && digestEvents == [] && lastDigestTime == now)
        && (!AllDated(queue) ==> flushed.value == Raised && digestEvents == queue && lastDigestTime == old(lastDigestTime))
    {
      if ShouldFilter(settings.filter, e) {
        return None, [];
      }
      digestEvents := digestEvents + [e];
      if Dispatch.DigestDue(lastDigestTime, now, settings.digestInterval) {
        var r;
        r, sent := SendDigestNotification(now, smtp, post);
        flushed := Some(r);
      } else {
        flushed := None;
        sent := [];
      }
    }
  }
}
