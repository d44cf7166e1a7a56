/**
  The Telegram channel of the notification dispatcher: the message for one
  event in its four layouts (compact or detailed, with or without emoji), the
  digest message, and the credential check made before any request. The
  HTTP request is a parameter; the subject the dispatcher passes is not used.
*/
module TelegramService {
  import opened PyValues
  import opened Records
  import opened Config

  /** One `sendMessage` request: true when the API answers with status 200 and nothing raises. */
  type Post = (TelegramSettings, string) -> bool

  const Bell := "\U{1F514}"
  const Padlock := "\U{1F512}"
  const Person := "\U{1F464}"
  const Clock := "\U{1F552}"
  const Phone := "\U{1F4F1}"
  const Bullet := "\U{2022}"

  /** `_send_telegram`: refuses without a request when the bot token or the chat id is empty. */
  function SendTelegram(c: TelegramSettings, post: Post, message: string): (ok: bool)
    ensures c.botToken == "" || c.chatId == "" ==> !ok
    ensures c.botToken != "" && c.chatId != "" ==> ok == post(c, message)
  {
    if c.botToken == "" || c.chatId == "" then false else post(c, message)
  }

  /** `_build_single_telegram`. */
  function SingleTelegram(c: TelegramSettings, e: EventRecord): string {
    var triggerDesc := TriggerDescription(e);
    if !c.useEmoji then
      if c.format == "compact" then
        "Nuki Lock Alert: " + e.eventType + " by " + e.userName + " on " + e.lockName
        + " at " + e.date + " (" + triggerDesc + ")"
      else
        ("Nuki Lock Alert" + "\n") + (e.eventType + " on " + e.lockName + "\n")
        + ("User: " + e.userName + "\n") + ("Time: " + e.date + "\n") + ("Trigger: " + triggerDesc)
    else if c.format == "compact" then
      Bell + " Nuki Alert: " + e.eventType + " by " + e.userName + " on " + e.lockName + " at " + e.date
    else
      (Bell + " *Nuki Lock Alert*" + "\n")
      + (Padlock + " *" + e.eventType + "* on *" + e.lockName + "*" + "\n")
      + (Person + " User: " + e.userName + "\n")
      + (Clock + " Time: " + e.date + "\n")
      + (Phone + " Trigger: " + triggerDesc + "\n")
  }

  /** Two records that differ at most in their trigger. */
  predicate SameButTrigger(e: EventRecord, f: EventRecord) {
    e.eventType == f.eventType && e.userName == f.userName && e.lockName == f.lockName && e.date == f.date
  }

  /** The compact emoji message leaves the trigger out, so the trigger cannot change it. */
  lemma CompactEmojiIgnoresTrigger(c: TelegramSettings, e: EventRecord, f: EventRecord)
    requires c.useEmoji && c.format == "compact"
    requires SameButTrigger(e, f)
    ensures SingleTelegram(c, e) == SingleTelegram(c, f)
  {
  }

  /**
    The compact plain message does show the trigger: records with different
    trigger descriptions give different messages.
  */
  lemma CompactPlainShowsTrigger(c: TelegramSettings, e: EventRecord, f: EventRecord)
    requires !c.useEmoji && c.format == "compact"
    requires SameButTrigger(e, f) && TriggerDescription(e) != TriggerDescription(f)
    ensures SingleTelegram(c, e) != SingleTelegram(c, f)
  {
    var p := "Nuki Lock Alert: " + e.eventType + " by " + e.userName + " on " + e.lockName + " at " + e.date + " (";
    assert SingleTelegram(c, e) == p + (TriggerDescription(e) + ")");
    assert SingleTelegram(c, f) == p + (TriggerDescription(f) + ")");
    DifferentMiddle(p, TriggerDescription(e), TriggerDescription(f));
  }

  lemma DifferentMiddle(p: string, a: string, b: string)
    requires a != b
    ensures p + (a + ")") != p + (b + ")")
  {
    var x, y := p + (a + ")"), p + (b + ")");
    if |a| == |b| {
      assert x[|p|..|p| + |a|] == a;
      assert y[|p|..|p| + |b|] == b;
    }
  }

  /** Every `format` value other than "compact" gives the detailed layout, whatever it is. */
  lemma AnyOtherFormatIsDetailed(c: TelegramSettings, d: TelegramSettings, e: EventRecord)
    requires c.useEmoji == d.useEmoji
    requires c.format != "compact" && d.format != "compact"
    ensures SingleTelegram(c, e) == SingleTelegram(d, e)
  {
  }

  /**
    With single-line fields, the compact plain message is one line and the
    detailed plain message is the title and four lines with no trailing
    newline.
  */
  lemma PlainTelegramLayout(c: TelegramSettings, e: EventRecord)
    requires !c.useEmoji
    requires '\n' !in e.eventType && '\n' !in e.lockName && '\n' !in e.userName && '\n' !in e.date
    requires '\n' !in TriggerDescription(e)
    ensures c.format == "compact" ==> '\n' !in SingleTelegram(c, e)
    ensures c.format != "compact" ==> (Split(SingleTelegram(c, e), '\n') ==
      ["Nuki Lock Alert", e.eventType + " on " + e.lockName, "User: " + e.userName,
       "Time: " + e.date, "Trigger: " + TriggerDescription(e)])
  {
    if c.format != "compact" {
      var ls := ["Nuki Lock Alert", e.eventType + " on " + e.lockName, "User: " + e.userName, "Time: " + e.date];
      var last := "Trigger: " + TriggerDescription(e);
      DetailedPlainLines(c, e);
      LinesSplitLast(ls, last);
      assert ls + [last] == ["Nuki Lock Alert", e.eventType + " on " + e.lockName, "User: " + e.userName,
       "Time: " + e.date, "Trigger: " + TriggerDescription(e)];
    }
  }

  lemma DetailedPlainLines(c: TelegramSettings, e: EventRecord)
    requires !c.useEmoji && c.format != "compact"
    ensures SingleTelegram(c, e) ==
      Lines(["Nuki Lock Alert", e.eventType + " on " + e.lockName, "User: " + e.userName, "Time: " + e.date])
      + ("Trigger: " + TriggerDescription(e))
  {
    var ls := ["Nuki Lock Alert", e.eventType + " on " + e.lockName, "User: " + e.userName, "Time: " + e.date];
    LinesSnoc([], ls[0]); assert [] + [ls[0]] == ls[..1];
    assert "" + (ls[0] + "\n") == ls[0] + "\n";
    LinesSnoc(ls[..1], ls[1]); assert ls[..1] + [ls[1]] == ls[..2];
    LinesSnoc(ls[..2], ls[2]); assert ls[..2] + [ls[2]] == ls[..3];
    LinesSnoc(ls[..3], ls[3]); assert ls[..3] + [ls[3]] == ls;
  }

  /** The digest's first lines: the title, with a bell in front exactly when emoji are on, and a blank line. */
  function DigestHeader(useEmoji: bool): (h: seq<string>)
    ensures |h| == 2 && h[1] == ""
    ensures useEmoji ==> h[0] == Bell + " " + "*Nuki Lock Activity Digest*"
    ensures !useEmoji ==> h[0] == "*Nuki Lock Activity Digest*"
  {
    var emojiPrefix := if useEmoji then Bell + " " else "";
    [emojiPrefix + "*Nuki Lock Activity Digest*", ""]
  }

  /** The three lines and the blank line one event adds to the digest, with emoji. */
  function EmojiDigestBlock(e: EventRecord): (b: seq<string>)
    ensures |b| == 4
  {
    [Bullet + " " + (Clock + " ") + e.date + " - " + e.lockName,
     "  " + (Padlock + " ") + e.eventType + " by " + (Person + " ") + e.userName,
     "  " + (Phone + " ") + "Trigger: " + TriggerDescription(e),
     ""]
  }

  /** The three lines and the blank line one event adds to the digest, without emoji. */
  function PlainDigestBlock(e: EventRecord): (b: seq<string>)
    ensures |b| == 4
  {
    [Bullet + " " + e.date + " - " + e.lockName,
     "  " + e.eventType + " by " + e.userName,
     "  " + "Trigger: " + TriggerDescription(e),
     ""]
  }

  function DigestBlock(useEmoji: bool): EventRecord -> seq<string> {
    if useEmoji then EmojiDigestBlock else PlainDigestBlock
  }

  /** The digest message: the header, then one block per event in the order given. */
  function DigestTelegram(useEmoji: bool, events: seq<EventRecord>): string {
    Lines(DigestHeader(useEmoji) + Blocks(DigestBlock(useEmoji), events))
  }

  lemma HeaderText(useEmoji: bool)
    ensures Lines(DigestHeader(useEmoji)) ==
      (if useEmoji then Bell + " " else "") + "*Nuki Lock Activity Digest*" + "\n\n"
  {
    var h := DigestHeader(useEmoji);
    LinesSnocBlank([], h[0]);
    assert [] + [h[0], ""] == h;
    assert "" + (h[0] + "\n\n") == h[0] + "\n\n";
  }

  /** The digest text after the header and the first `i` events. */
  function DigestUpTo(useEmoji: bool, events: seq<EventRecord>, i: nat): string
    requires i <= |events|
  {
    Lines(DigestHeader(useEmoji) + Blocks(DigestBlock(useEmoji), events[..i]))
  }

  lemma DigestStart(useEmoji: bool, events: seq<EventRecord>)
    ensures DigestUpTo(useEmoji, events, 0) == (if useEmoji then Bell + " " else "") + "*Nuki Lock Activity Digest*" + "\n\n"
  {
    HeaderText(useEmoji);
    assert DigestHeader(useEmoji) + Blocks(DigestBlock(useEmoji), events[..0]) == DigestHeader(useEmoji);
  }

  lemma DigestStep(useEmoji: bool, events: seq<EventRecord>, i: nat)
    requires i < |events|
    ensures DigestUpTo(useEmoji, events, i + 1) == DigestUpTo(useEmoji, events, i) + Lines(DigestBlock(useEmoji)(events[i]))
  {
    LinesBlocksStep(DigestHeader(useEmoji), DigestBlock(useEmoji), events, i);
  }

  /** `_build_digest_telegram`, growing the message event by event. */
  method BuildDigestTelegram(c: TelegramSettings, events: seq<EventRecord>) returns (msg: string)
    ensures msg == DigestTelegram(c.useEmoji, events)
  {
    var emojiPrefix := if c.useEmoji then Bell + " " else "";
    msg := emojiPrefix + "*Nuki Lock Activity Digest*" + "\n\n";
    DigestStart(c.useEmoji, events);
    for i := 0 to |events|
      invariant msg == DigestUpTo(c.useEmoji, events, i)
    {
      msg := AppendDigestEvent(msg, c.useEmoji, events[i]);
      DigestStep(c.useEmoji, events, i);
    }
    assert events[..|events|] == events;
  }

  /** The loop body of `_build_digest_telegram`: one event's three lines and a blank line. */
  method AppendDigestEvent(msg0: string, useEmoji: bool, event: EventRecord) returns (msg: string)
    ensures msg == msg0 + Lines(DigestBlock(useEmoji)(event))
  {
    var triggerDesc := TriggerDescription(event);
    msg := msg0;
    if useEmoji {
      var lockEmoji := Padlock + " ";
      var userEmoji := Person + " ";
      var timeEmoji := Clock + " ";
      var triggerEmoji := Phone + " ";
      msg := msg + (Bullet + " " + timeEmoji + event.date + " - " + event.lockName + "\n");
      msg := msg + ("  " + lockEmoji + event.eventType + " by " + userEmoji + event.userName + "\n");
      msg := msg + ("  " + triggerEmoji + "Trigger: " + triggerDesc + "\n\n");
      BlockLines(msg0, Bullet + " " + timeEmoji + event.date + " - " + event.lockName,
        "  " + lockEmoji + event.eventType + " by " + userEmoji + event.userName,
        "  " + triggerEmoji + "Trigger: " + triggerDesc);
    } else {
      msg := msg + (Bullet + " " + event.date + " - " + event.lockName + "\n");
      msg := msg + ("  " + event.eventType + " by " + event.userName + "\n");
      msg := msg + ("  " + "Trigger: " + triggerDesc + "\n\n");
      BlockLines(msg0, Bullet + " " + event.date + " - " + event.lockName,
        "  " + event.eventType + " by " + event.userName,
        "  " + "Trigger: " + triggerDesc);
    }
  }

  /** Three lines and a blank line, appended to `m`. */
  lemma BlockLines(m: string, x1: string, x2: string, x3: string)
    ensures m + Lines([x1, x2, x3, ""]) == m + (x1 + "\n") + (x2 + "\n") + (x3 + "\n\n")
  {
    LinesSnoc([], x1);
    assert [] + [x1] == [x1];
    LinesSnoc([x1], x2);
    assert [x1] + [x2] == [x1, x2];
    LinesSnocBlank([x1, x2], x3);
    assert [x1, x2] + [x3, ""] == [x1, x2, x3, ""];
    var p1, p2, p3 := x1 + "\n", x2 + "\n", x3 + "\n\n";
    assert Lines([x1, x2, x3, ""]) == "" + p1 + p2 + p3;
    assert m + ("" + p1 + p2 + p3) == m + p1 + p2 + p3;
  }

  lemma BlockClean(useEmoji: bool, e: EventRecord)
    requires '\n' !in e.eventType && '\n' !in e.lockName && '\n' !in e.userName && '\n' !in e.date
    requires '\n' !in TriggerDescription(e)
    ensures NoNewline(DigestBlock(useEmoji)(e))
  {
  }

  lemma HeaderClean(useEmoji: bool)
    ensures NoNewline(DigestHeader(useEmoji))
  {
  }

  lemma DigestLinesClean(useEmoji: bool, events: seq<EventRecord>)
    requires forall k :: 0 <= k < |events| ==>
      '\n' !in events[k].eventType && '\n' !in events[k].lockName && '\n' !in events[k].userName
      && '\n' !in events[k].date && '\n' !in TriggerDescription(events[k])
    ensures NoNewline(DigestHeader(useEmoji) + Blocks(DigestBlock(useEmoji), events))
  {
    forall k | 0 <= k < |events| ensures NoNewline(DigestBlock(useEmoji)(events[k])) {
      BlockClean(useEmoji, events[k]);
    }
    BlocksNoNewline(DigestBlock(useEmoji), events);
    HeaderClean(useEmoji);
    NoNewlineAppend(DigestHeader(useEmoji), Blocks(DigestBlock(useEmoji), events));
  }

  lemma DigestBlocksAt(useEmoji: bool, events: seq<EventRecord>)
    ensures |Blocks(DigestBlock(useEmoji), events)| == 4 * |events|
    ensures forall i :: 0 <= i < |events| ==>
      Blocks(DigestBlock(useEmoji), events)[4 * i..4 * i + 4] == DigestBlock(useEmoji)(events[i])
  {
    var f := DigestBlock(useEmoji);
    BlocksLength(f, events, 4);
    forall i | 0 <= i < |events| ensures Blocks(f, events)[4 * i..4 * i + 4] == f(events[i]) {
      BlockAt(f, events, 4, i);
    }
  }

  /**
    Read line by line, the digest is the two header lines followed by four
    lines per event, in the order of `events`: block `i` is event `i`'s date
    and lock line, its action and user line, its trigger line and a blank line.
  */
  lemma DigestTelegramLayout(useEmoji: bool, events: seq<EventRecord>)
    requires forall k :: 0 <= k < |events| ==>
      '\n' !in events[k].eventType && '\n' !in events[k].lockName && '\n' !in events[k].userName
      && '\n' !in events[k].date && '\n' !in TriggerDescription(events[k])
    ensures Split(DigestTelegram(useEmoji, events), '\n') ==
      DigestHeader(useEmoji) + Blocks(DigestBlock(useEmoji), events) + [""]
    ensures |Blocks(DigestBlock(useEmoji), events)| == 4 * |events|
    ensures forall i :: 0 <= i < |events| ==>
      Blocks(DigestBlock(useEmoji), events)[4 * i..4 * i + 4] == DigestBlock(useEmoji)(events[i])
  {
    DigestLinesClean(useEmoji, events);
    LinesSplit(DigestHeader(useEmoji) + Blocks(DigestBlock(useEmoji), events));
    DigestBlocksAt(useEmoji, events);
  }

  /** `send_notification`: the subject is ignored; exactly the result of sending the single-event message. */
  function SendNotification(c: TelegramSettings, post: Post, subject: string, e: EventRecord): (ok: bool)
    ensures ok == SendTelegram(c, post, SingleTelegram(c, e))
    ensures ok ==> c.botToken != "" && c.chatId != ""
  {
    SendTelegram(c, post, SingleTelegram(c, e))
  }

  /** `send_digest`: the subject is ignored; exactly the result of sending the digest message. */
  method SendDigest(c: TelegramSettings, post: Post, subject: string, events: seq<EventRecord>) returns (ok: bool)
    ensures ok == SendTelegram(c, post, DigestTelegram(c.useEmoji, events))
    ensures ok ==> c.botToken != "" && c.chatId != ""
  {
    var message := BuildDigestTelegram(c, events);
    ok := SendTelegram(c, post, message);
  }
}
