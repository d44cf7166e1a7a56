/**
  The e-mail channel of the notification dispatcher: the plain-text bodies
  for a single event and for a digest, the choice between plain and HTML
  bodies, and the credential check made before any SMTP connection. The
  SMTP exchange itself is a parameter.
*/
module EmailService {
  import opened PyValues
  import opened Records
  import opened Config

  /**
    The body handed to SMTP: plain text, or the HTML page that lays out the
    given event or events (its markup is not part of this model).
  */
  datatype EmailBody = PlainText(text: string) | HtmlSingle(event: EventRecord) | HtmlDigest(events: seq<EventRecord>)

  /** The SMTP exchange for one message: true when it completes without raising. */
  type Smtp = (EmailSettings, string, EmailBody) -> bool

  /** Server, port, sender, recipient, user name and password are all set (the port is non-zero). */
  predicate CredentialsComplete(c: EmailSettings) {
    c.smtpServer != "" && c.smtpPort != 0 && c.sender != "" && c.recipient != ""
    && c.username != "" && c.password != ""
  }

  /** `_send_email`: refuses without contacting the server when a credential is missing. */
  function SendEmail(c: EmailSettings, smtp: Smtp, subject: string, body: EmailBody): (ok: bool)
    ensures !CredentialsComplete(c) ==> !ok
    ensures CredentialsComplete(c) ==> ok == smtp(c, subject, body)
  {
    if !CredentialsComplete(c) then false else smtp(c, subject, body)
  }

  /** The plain-text mail for one event, built up piece by piece. */
  function SinglePlainEmail(e: EventRecord): string {
    var triggerDesc := TriggerDescription(e);
    ("Nuki Lock Alert" + "\n")
    + ("==============" + "\n\n")
    + ("Action: " + e.eventType + "\n")
    + ("Lock: " + e.lockName + "\n")
    + ("User: " + e.userName + "\n")
    + ("Time: " + e.date + "\n")
    + ("Trigger: " + triggerDesc + "\n")
  }

  /** The field texts of a record contain no line breaks. */
  predicate SingleLineFields(e: EventRecord) {
    '\n' !in e.eventType && '\n' !in e.lockName && '\n' !in e.userName && '\n' !in e.date
    && '\n' !in TriggerDescription(e)
  }

  /**
    Read line by line, the single plain mail is the title, its underline, a
    blank line and then the Action, Lock, User, Time and Trigger lines.
  */
  lemma SinglePlainLayout(e: EventRecord)
    requires SingleLineFields(e)
    ensures Split(SinglePlainEmail(e), '\n') ==
      ["Nuki Lock Alert", "==============", "",
       "Action: " + e.eventType, "Lock: " + e.lockName, "User: " + e.userName,
       "Time: " + e.date, "Trigger: " + TriggerDescription(e), ""]
  {
    var ls := ["Nuki Lock Alert", "==============", "",
               "Action: " + e.eventType, "Lock: " + e.lockName, "User: " + e.userName,
               "Time: " + e.date, "Trigger: " + TriggerDescription(e)];
    LinesSnoc([], ls[0]); assert [] + [ls[0]] == ls[..1];
    assert "" + (ls[0] + "\n") == ls[0] + "\n";
    LinesSnocBlank(ls[..1], ls[1]); assert ls[..1] + [ls[1], ""] == ls[..3];
    LinesSnoc(ls[..3], ls[3]); assert ls[..3] + [ls[3]] == ls[..4];
    LinesSnoc(ls[..4], ls[4]); assert ls[..4] + [ls[4]] == ls[..5];
    LinesSnoc(ls[..5], ls[5]); assert ls[..5] + [ls[5]] == ls[..6];
    LinesSnoc(ls[..6], ls[6]); assert ls[..6] + [ls[6]] == ls[..7];
    LinesSnoc(ls[..7], ls[7]); assert ls[..7] + [ls[7]] == ls;
    assert SinglePlainEmail(e) == Lines(ls);
    LinesSplit(ls);
  }

  const DigestPlainHeader: seq<string> :=
    ["Nuki Lock Activity Digest", "========================", "", "The following activity has been recorded:", ""]

  /** The lines the plain digest gives one event, ending with the separator and a blank line. */
  function PlainDigestBlock(e: EventRecord): (b: seq<string>)
    ensures |b| == 8
  {
    ["Date: " + e.date, "Lock: " + e.lockName, "Action: " + e.eventType, "User: " + e.userName,
     "Trigger: " + TriggerDescription(e), "", "-----------------------", ""]
  }

  /** The plain digest: the header, then one block per event in the order given. */
  function DigestPlainText(events: seq<EventRecord>): string {
    Lines(DigestPlainHeader + Blocks(PlainDigestBlock, events))
  }

  /** The header text is the header lines. */
  lemma DigestPlainHeaderText()
    ensures Lines(DigestPlainHeader) ==
      "Nuki Lock Activity Digest" + "\n"
      + ("========================" + "\n\n")
      + ("The following activity has been recorded:" + "\n\n")
  {
    var h := DigestPlainHeader;
    LinesSnoc([], h[0]); assert [] + [h[0]] == h[..1];
    assert "" + (h[0] + "\n") == h[0] + "\n";
    LinesSnocBlank(h[..1], h[1]); assert h[..1] + [h[1], ""] == h[..3];
    LinesSnocBlank(h[..3], h[3]); assert h[..3] + [h[3], ""] == h;
  }

  /** Appending one event's block appends the six pieces the loop body adds, in order. */
  lemma PlainDigestBlockStep(lines: seq<string>, e: EventRecord, triggerDesc: string)
    requires triggerDesc == TriggerDescription(e)
    ensures Lines(lines + PlainDigestBlock(e)) ==
      Lines(lines)
      + ("Date: " + e.date + "\n")
      + ("Lock: " + e.lockName + "\n")
      + ("Action: " + e.eventType + "\n")
      + ("User: " + e.userName + "\n")
      + ("Trigger: " + triggerDesc + "\n\n")
      + ("-----------------------" + "\n\n")
  {
    var b := PlainDigestBlock(e);
    LinesSnoc(lines, b[0]); assert lines + [b[0]] == lines + b[..1];
    LinesSnoc(lines + b[..1], b[1]); assert lines + b[..1] + [b[1]] == lines + b[..2];
    LinesSnoc(lines + b[..2], b[2]); assert lines + b[..2] + [b[2]] == lines + b[..3];
    LinesSnoc(lines + b[..3], b[3]); assert lines + b[..3] + [b[3]] == lines + b[..4];
    LinesSnocBlank(lines + b[..4], b[4]); assert lines + b[..4] + [b[4], ""] == lines + b[..6];
    LinesSnocBlank(lines + b[..6], b[6]); assert lines + b[..6] + [b[6], ""] == lines + b;
  }

  /** `_build_digest_plain_email`, growing the text event by event. */
  method BuildDigestPlainEmail(events: seq<EventRecord>) returns (text: string)
    ensures text == DigestPlainText(events)
  {
    text := "Nuki Lock Activity Digest" + "\n";
    text := text + ("========================" + "\n\n");
    text := text + ("The following activity has been recorded:" + "\n\n");
    DigestPlainHeaderText();
    assert DigestPlainHeader + Blocks(PlainDigestBlock, events[..0]) == DigestPlainHeader;
    for i := 0 to |events|
      invariant text == Lines(DigestPlainHeader + Blocks(PlainDigestBlock, events[..i]))
    {
      var event := events[i];
      var triggerDesc := TriggerDescription(event);
      PlainDigestBlockStep(DigestPlainHeader + Blocks(PlainDigestBlock, events[..i]), event, triggerDesc);
      BlocksStep(PlainDigestBlock, events, i);
      assert DigestPlainHeader + Blocks(PlainDigestBlock, events[..i + 1])
          == DigestPlainHeader + Blocks(PlainDigestBlock, events[..i]) + PlainDigestBlock(event);
      text := text + ("Date: " + event.date + "\n");
      text := text + ("Lock: " + event.lockName + "\n");
      text := text + ("Action: " + event.eventType + "\n");
      text := text + ("User: " + event.userName + "\n");
      text := text + ("Trigger: " + triggerDesc + "\n\n");
      text := text + ("-----------------------" + "\n\n");
    }
    assert events[..|events|] == events;
  }

  lemma PlainDigestBlockNoNewline(e: EventRecord)
    requires SingleLineFields(e)
    ensures NoNewline(PlainDigestBlock(e))
  {
  }

  /**
    Read line by line, the plain digest is the five header lines followed by
    eight lines per event, in the order of `events`: block `i` is event `i`'s
    Date, Lock, Action, User and Trigger lines and the separator.
  */
  lemma DigestPlainLayout(events: seq<EventRecord>)
    requires forall k :: 0 <= k < |events| ==> SingleLineFields(events[k])
    ensures Split(DigestPlainText(events), '\n') == DigestPlainHeader + Blocks(PlainDigestBlock, events) + [""]
    ensures |Blocks(PlainDigestBlock, events)| == 8 * |events|
    ensures forall i :: 0 <= i < |events| ==>
      Blocks(PlainDigestBlock, events)[8 * i..8 * i + 8] == PlainDigestBlock(events[i])
  {
    PlainDigestLinesClean(events);
    LinesSplit(DigestPlainHeader + Blocks(PlainDigestBlock, events));
    PlainDigestBlocksAt(events);
  }

  lemma PlainDigestLinesClean(events: seq<EventRecord>)
    requires forall k :: 0 <= k < |events| ==> SingleLineFields(events[k])
    ensures NoNewline(DigestPlainHeader + Blocks(PlainDigestBlock, events))
  {
    PlainDigestBlocksClean(events);
    DigestPlainHeaderClean();
    NoNewlineAppend(DigestPlainHeader, Blocks(PlainDigestBlock, events));
  }

  lemma PlainDigestBlocksClean(events: seq<EventRecord>)
    requires forall k :: 0 <= k < |events| ==> SingleLineFields(events[k])
    ensures NoNewline(Blocks(PlainDigestBlock, events))
  {
    EveryPlainDigestBlockClean();
    BlocksNoNewlineWhen(PlainDigestBlock, SingleLineFields, events);
  }

  lemma EveryPlainDigestBlockClean()
    ensures forall e :: SingleLineFields(e) ==> NoNewline(PlainDigestBlock(e))
  {
    forall e | SingleLineFields(e) ensures NoNewline(PlainDigestBlock(e)) {
      PlainDigestBlockNoNewline(e);
    }
  }

  lemma DigestPlainHeaderClean()
    ensures NoNewline(DigestPlainHeader)
  {
  }

  lemma PlainDigestBlocksAt(events: seq<EventRecord>)
    ensures |Blocks(PlainDigestBlock, events)| == 8 * |events|
    ensures forall i :: 0 <= i < |events| ==>
      Blocks(PlainDigestBlock, events)[8 * i..8 * i + 8] == PlainDigestBlock(events[i])
  {
    BlocksLength(PlainDigestBlock, events, 8);
    forall i | 0 <= i < |events|
      ensures Blocks(PlainDigestBlock, events)[8 * i..8 * i + 8] == PlainDigestBlock(events[i])
    {
      BlockAt(PlainDigestBlock, events, 8, i);
    }
  }

  /** `_build_single_email`: the plain builder unless HTML mail is switched on. */
  function SingleBody(c: EmailSettings, e: EventRecord): (b: EmailBody)
    ensures !c.useHtml <==> b.PlainText?
    ensures !c.useHtml ==> b.text == SinglePlainEmail(e)
  {
    if !c.useHtml then PlainText(SinglePlainEmail(e)) else HtmlSingle(e)
  }

  /** `_build_digest_email`: the plain builder unless HTML mail is switched on. */
  function DigestBody(c: EmailSettings, events: seq<EventRecord>): (b: EmailBody)
    ensures !c.useHtml <==> b.PlainText?
    ensures !c.useHtml ==> b.text == DigestPlainText(events)
  {
    if !c.useHtml then PlainText(DigestPlainText(events)) else HtmlDigest(events)
  }

  /** `send_notification`: exactly the result of sending the single-event body under `subject`. */
  function SendNotification(c: EmailSettings, smtp: Smtp, subject: string, e: EventRecord): (ok: bool)
    ensures ok == SendEmail(c, smtp, subject, SingleBody(c, e))
    ensures ok ==> CredentialsComplete(c)
  {
    SendEmail(c, smtp, subject, SingleBody(c, e))
  }

  /** `send_digest`: builds the digest body and returns exactly the send result. */
  method SendDigest(c: EmailSettings, smtp: Smtp, subject: string, events: seq<EventRecord>) returns (ok: bool)
    ensures ok == SendEmail(c, smtp, subject, DigestBody(c, events))
    ensures ok ==> CredentialsComplete(c)
  {
    var body: EmailBody;
    if !c.useHtml {
      var text := BuildDigestPlainEmail(events);
      body := PlainText(text);
    } else {
      body := HtmlDigest(events);
    }
    ok := SendEmail(c, smtp, subject, body);
  }
}
