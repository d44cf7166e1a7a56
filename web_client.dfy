/**
  The browser side of the web dashboard: the CSV export of a table of
  records, and the two decision chains that turn a failed AJAX request into
  the message shown to the user (with a delayed redirect to the login page
  when the session is no longer valid).
*/
module WebClient {
  import opened PyValues

  // ---------------------------------------------------------------------
  // CSV export
  // ---------------------------------------------------------------------

  /** A data row as a JavaScript object; a missing key reads as `undefined`. */
  type Row = map<string, Value>

  /** JavaScript `String(v)` for a JSON scalar. */
  function JsText(v: Value): string {
    match v
    case Null => "null"
    case Bool(b) => if b then "true" else "false"
    case Int(i) => IntToDecimal(i)
    case Str(s) => s
  }

  /** The text of `row[header] || ''`: a missing or falsy value gives the empty text. */
  function CellText(row: Row, header: string): (t: string)
    ensures header !in row || !Truthy(row[header]) ==> t == ""
    ensures header in row && Truthy(row[header]) ==> t == JsText(row[header]) && t != ""
  {
    if header in row && Truthy(row[header]) then JsText(row[header]) else ""
  }

  /** `s.replace(/"/g, '""')`: every double quote doubled. */
  function Escape(s: string): (r: string)
    ensures |r| >= |s|
    ensures '"' !in s ==> r == s
  {
    if s == [] then []
    else EscapeChar(s[0]) + Escape(s[1..])
  }

  function EscapeChar(c: char): string {
    if c == '"' then ['"', '"'] else [c]
  }

  /** One CSV field: the escaped text between double quotes. */
  function Quoted(s: string): string {
    ['"'] + Escape(s) + ['"']
  }

  function QuotedAll(ts: seq<string>): (r: seq<string>)
    ensures |r| == |ts| && forall i :: 0 <= i < |ts| ==> r[i] == Quoted(ts[i])
  {
    seq(|ts|, i requires 0 <= i < |ts| => Quoted(ts[i]))
  }

  /** The cell texts of one row, in the order of `headers`. */
  function CellTexts(row: Row, headers: seq<string>): (r: seq<string>)
    ensures |r| == |headers| && forall i :: 0 <= i < |headers| ==> r[i] == CellText(row, headers[i])
  {
    seq(|headers|, i requires 0 <= i < |headers| => CellText(row, headers[i]))
  }

  const Comma: string := ","
  const Newline: string := "\n"

  /** The header line: the header names, unquoted, joined by commas. */
  function HeaderLine(headers: seq<string>): string {
    Join(headers, Comma) + Newline
  }

  /** One data line: every cell quoted, joined by commas, ended by a newline. */
  function RowLine(row: Row, headers: seq<string>): string {
    Join(QuotedAll(CellTexts(row, headers)), Comma) + Newline
  }

  function RowsText(data: seq<Row>, headers: seq<string>): string {
    if data == [] then "" else RowLine(data[0], headers) + RowsText(data[1..], headers)
  }

  /** The whole export: the header line and then one line per data row. */
  function CsvText(data: seq<Row>, headers: seq<string>): string {
    HeaderLine(headers) + RowsText(data, headers)
  }

  lemma {:induction false} RowsTextSnoc(data: seq<Row>, row: Row, headers: seq<string>)
    ensures RowsText(data + [row], headers) == RowsText(data, headers) + RowLine(row, headers)
  {
    if data != [] {
      assert (data + [row])[1..] == data[1..] + [row];
      RowsTextSnoc(data[1..], row, headers);
    } else {
      assert ([] + [row])[1..] == [];
    }
  }

  /** Exporting one more row appends that row's line. */
  lemma CsvTextStep(data: seq<Row>, i: nat, headers: seq<string>)
    requires i < |data|
    ensures CsvText(data[..i + 1], headers) == CsvText(data[..i], headers) + RowLine(data[i], headers)
  {
    assert data[..i + 1] == data[..i] + [data[i]];
    RowsTextSnoc(data[..i], data[i], headers);
  }

  /** `formatCsvData`: the header line, then each row appended in turn. */
  method FormatCsvData(data: seq<Row>, headers: seq<string>) returns (csv: string)
    ensures csv == CsvText(data, headers)
  {
    csv := Join(headers, Comma) + Newline;
    var i := 0;
    while i < |data|
      invariant 0 <= i <= |data|
      invariant csv == CsvText(data[..i], headers)
    {
      var values := QuotedAll(CellTexts(data[i], headers));
      CsvTextStep(data, i, headers);
      csv := csv + Join(values, Comma) + Newline;
      i := i + 1;
    }
    assert data[..i] == data;
  }

  // A reader for the lines the export writes: every field quoted, `""`
  // standing for one double quote, fields separated by commas.

  /** The inside of a quoted field up to its closing quote, and what follows it. */
  function QuotedBody(s: string): (r: Option<(string, string)>)
    ensures r.Some? ==> |r.value.1| < |s|
    decreases |s|
  {
    if s == [] then None
    else if s[0] == '"' then
      if |s| > 1 && s[1] == '"' then
        match QuotedBody(s[2..])
        case None => None
        case Some((t, rest)) => Some((['"'] + t, rest))
      else Some(([], s[1..]))
    else
      match QuotedBody(s[1..])
      case None => None
      case Some((t, rest)) => Some(([s[0]] + t, rest))
  }

  /** One or more quoted fields separated by commas and ended by a newline. */
  function ParseFields(s: string): (r: Option<(seq<string>, string)>)
    ensures r.Some? ==> |r.value.1| < |s|
    decreases |s|
  {
    if s == [] || s[0] != '"' then None
    else
      match QuotedBody(s[1..])
      case None => None
      case Some((t, rest)) =>
        if rest != [] && rest[0] == ',' then
          match ParseFields(rest[1..])
          case None => None
          case Some((ts, rest2)) => Some(([t] + ts, rest2))
        else if rest != [] && rest[0] == '\n' then Some(([t], rest[1..]))
        else None
  }

  /** One line of fields; a bare newline is a line without fields. */
  function ParseLine(s: string): (r: Option<(seq<string>, string)>)
    ensures r.Some? ==> |r.value.1| < |s|
  {
    if s != [] && s[0] == '\n' then Some(([], s[1..])) else ParseFields(s)
  }

  function ParseRows(s: string): Option<seq<seq<string>>>
    decreases |s|
  {
    if s == [] then Some([])
    else
      match ParseLine(s)
      case None => None
      case Some((fields, rest)) =>
        match ParseRows(rest)
        case None => None
        case Some(rows) => Some([fields] + rows)
  }

  lemma Regroup(a: string, b: string, c: string, d: string)
    ensures a + b + c + d == a + (b + c + d)
  {
  }

  lemma QuotedBodyClose(x: string)
    requires x == [] || x[0] != '"'
    ensures QuotedBody(['"'] + x) == Some(([], x))
  {
    assert (['"'] + x)[1..] == x;
  }

  lemma QuotedBodyPair(x: string, t: string, rest: string)
    requires QuotedBody(x) == Some((t, rest))
    ensures QuotedBody(['"', '"'] + x) == Some((['"'] + t, rest))
  {
    assert (['"', '"'] + x)[2..] == x;
  }

  lemma QuotedBodyOther(c: char, x: string, t: string, rest: string)
    requires c != '"' && QuotedBody(x) == Some((t, rest))
    ensures QuotedBody([c] + x) == Some(([c] + t, rest))
  {
    assert ([c] + x)[1..] == x;
  }

  /** The escaped text and the closing quote read back as the text, provided
      what follows does not itself start with a quote. */
  lemma {:induction false} QuotedBodyEscape(t: string, rest: string)
    requires rest == [] || rest[0] != '"'
    ensures QuotedBody(Escape(t) + ['"'] + rest) == Some((t, rest))
    decreases |t|
  {
    if t == [] {
      assert Escape(t) + ['"'] + rest == ['"'] + rest;
      QuotedBodyClose(rest);
    } else {
      var inner := Escape(t[1..]) + ['"'] + rest;
      QuotedBodyEscape(t[1..], rest);
      assert Escape(t) == EscapeChar(t[0]) + Escape(t[1..]);
      Regroup(EscapeChar(t[0]), Escape(t[1..]), ['"'], rest);
      assert [t[0]] + t[1..] == t;
      if t[0] == '"' {
        QuotedBodyPair(inner, t[1..], rest);
      } else {
        QuotedBodyOther(t[0], inner, t[1..], rest);
      }
    }
  }

  /** A quoted field followed by `rest` reads back as its text and `rest`. */
  lemma QuotedField(t: string, rest: string)
    requires rest == [] || rest[0] != '"'
    ensures Quoted(t) + rest != [] && (Quoted(t) + rest)[0] == '"'
    ensures QuotedBody((Quoted(t) + rest)[1..]) == Some((t, rest))
  {
    assert (Quoted(t) + rest)[1..] == Escape(t) + ['"'] + rest;
    QuotedBodyEscape(t, rest);
  }

  lemma JoinFront(q: seq<string>, sep: string)
    requires |q| >= 2
    ensures Join(q, sep) == q[0] + sep + Join(q[1..], sep)
  {
  }

  lemma ParseFieldsLast(t: string, rest: string)
    ensures ParseFields(Quoted(t) + (['\n'] + rest)) == Some(([t], rest))
  {
    QuotedField(t, ['\n'] + rest);
    assert (['\n'] + rest)[1..] == rest;
  }

  lemma ParseFieldsMore(t: string, tail: string, ts: seq<string>, rest: string)
    requires ParseFields(tail) == Some((ts, rest))
    ensures ParseFields(Quoted(t) + ([','] + tail)) == Some(([t] + ts, rest))
  {
    QuotedField(t, [','] + tail);
    assert ([','] + tail)[1..] == tail;
  }

  lemma {:induction false} FieldsRoundTrip(texts: seq<string>, rest: string)
    requires |texts| >= 1
    ensures ParseFields(Join(QuotedAll(texts), Comma) + ['\n'] + rest) == Some((texts, rest))
    decreases |texts|
  {
    var q := QuotedAll(texts);
    if |texts| == 1 {
      assert Join(q, Comma) == Quoted(texts[0]);
      assert Quoted(texts[0]) + ['\n'] + rest == Quoted(texts[0]) + (['\n'] + rest);
      ParseFieldsLast(texts[0], rest);
      assert texts == [texts[0]];
    } else {
      JoinFront(q, Comma);
      assert q[1..] == QuotedAll(texts[1..]);
      var tail := Join(q[1..], Comma) + ['\n'] + rest;
      Regroup(Quoted(texts[0]) + Comma, Join(q[1..], Comma), ['\n'], rest);
      assert Join(q, Comma) + ['\n'] + rest == Quoted(texts[0]) + ([','] + tail);
      FieldsRoundTrip(texts[1..], rest);
      ParseFieldsMore(texts[0], tail, texts[1..], rest);
      assert [texts[0]] + texts[1..] == texts;
    }
  }

  lemma JoinQuotedFront(texts: seq<string>)
    requires |texts| >= 1
    ensures Join(QuotedAll(texts), Comma) != [] && Join(QuotedAll(texts), Comma)[0] == '"'
  {
    var q := QuotedAll(texts);
    if |texts| == 1 {
      assert Join(q, Comma) == Quoted(texts[0]);
    } else {
      JoinFront(q, Comma);
      assert Join(q, Comma) == Quoted(texts[0]) + (Comma + Join(q[1..], Comma));
    }
  }

  /** Every exported data line reads back as the row's cell texts. */
  lemma LineRoundTrip(row: Row, headers: seq<string>, rest: string)
    ensures ParseLine(RowLine(row, headers) + rest) == Some((CellTexts(row, headers), rest))
  {
    var texts := CellTexts(row, headers);
    var line := Join(QuotedAll(texts), Comma);
    assert RowLine(row, headers) + rest == line + ['\n'] + rest;
    if texts == [] {
      assert line == [];
    } else {
      JoinQuotedFront(texts);
      FieldsRoundTrip(texts, rest);
    }
  }

  /** The cell texts of every row, one list per row. */
  function Table(data: seq<Row>, headers: seq<string>): (r: seq<seq<string>>)
    ensures |r| == |data|
    ensures forall j :: 0 <= j < |data| ==> r[j] == CellTexts(data[j], headers)
  {
    if data == [] then [] else [CellTexts(data[0], headers)] + Table(data[1..], headers)
  }

  /** The data lines of an export read back as the table of cell texts,
      one list per row and one text per header, in header order. */
  lemma {:induction false} RowsRoundTrip(data: seq<Row>, headers: seq<string>)
    ensures ParseRows(RowsText(data, headers)) == Some(Table(data, headers))
  {
    if data != [] {
      var line := RowLine(data[0], headers);
      var more := RowsText(data[1..], headers);
      assert RowsText(data, headers) == line + more;
      assert |line| >= 1;
      LineRoundTrip(data[0], headers, more);
      RowsRoundTrip(data[1..], headers);
    }
  }

  // ---------------------------------------------------------------------
  // Messages for a failed request
  // ---------------------------------------------------------------------

  /** What the error callback sees of the failed request: the `error` field of
      the JSON body (if any) and the HTTP status (0 when nothing came back). */
  datatype Xhr = Xhr(serverError: Option<string>, status: int)

  /** The cases both chains tell apart, in the order they test them. */
  datatype Cause =
    | ServerMessage(text: string)
    | TimedOut
    | NoConnection
    | Unauthorized
    | Forbidden
    | NotFound
    | ServerFault(code: int)
    | Unclassified

  predicate HasServerError(xhr: Xhr) {
    xhr.serverError.Some? && xhr.serverError.value != ""
  }

  /** The precedence shared by both chains: the first case that applies wins. */
  function Classify(xhr: Xhr, textStatus: string): (c: Cause)
    ensures c.ServerMessage? <==> HasServerError(xhr)
    ensures c.ServerMessage? ==> c.text == xhr.serverError.value
    ensures c == TimedOut <==> !HasServerError(xhr) && textStatus == "timeout"
    ensures c == Unauthorized ==> xhr.status == 401
    ensures c == Forbidden ==> xhr.status == 403
    ensures c.ServerFault? ==> c.code == xhr.status >= 500
    ensures c == Unclassified <==>
      !HasServerError(xhr) && textStatus != "timeout" && xhr.status !in {0, 401, 403, 404} && xhr.status < 500
  {
    if HasServerError(xhr) then ServerMessage(xhr.serverError.value)
    else if textStatus == "timeout" then TimedOut
    else if xhr.status == 0 then NoConnection
    else if xhr.status == 401 then Unauthorized
    else if xhr.status == 403 then Forbidden
    else if xhr.status == 404 then NotFound
    else if xhr.status >= 500 then ServerFault(xhr.status)
    else Unclassified
  }

  /** A delayed navigation, as scheduled with `setTimeout`. */
  datatype Redirect = Redirect(path: string, delayMs: nat)

  /** The message handed to the caller, and the redirect the handler schedules. */
  datatype Outcome = Outcome(message: string, redirect: Option<Redirect>)

  const LoginPath := "/login"

  // The fixed texts of `makeApiRequest`.
  const RequestDefault := "An error occurred while communicating with the server."
  const RequestTimeout := "The request timed out. Please check your connection and try again."
  const RequestNoConnection := "Could not connect to the server. Please check your connection."
  const RequestAuth := "Authentication error. Please log in again."
  const RequestNotFound := "The requested resource was not found."
  const RequestServerFault := "A server error occurred. Please try again later."

  // The fixed texts of `getApiErrorMessage`.
  const ApiDefault := "Failed to load data from server."
  const ApiTimeout := "Request timed out. Server might be under heavy load."
  const ApiNoConnection := "Cannot connect to server. Please check your network connection."
  const ApiSessionExpired := "Session expired. Please login again."
  const ApiForbidden := "You do not have permission to access this resource."
  const ApiNotFound := "Resource not found. The API endpoint may have changed."
  const ApiServerFaultPrefix := "Server error ("
  const ApiServerFaultSuffix := "). Please try again later or contact support."

  /** The error handler of `makeApiRequest`. */
  function RequestErrorOutcome(xhr: Xhr, textStatus: string): (o: Outcome)
    ensures o.redirect.Some? <==> Classify(xhr, textStatus) == Unauthorized || Classify(xhr, textStatus) == Forbidden
    ensures o.redirect.Some? ==> o.redirect.value == Redirect(LoginPath, 2000)
    ensures HasServerError(xhr) ==> o.message == xhr.serverError.value
    ensures Classify(xhr, textStatus) == Unclassified ==> o.message == RequestDefault
  {
    match Classify(xhr, textStatus)
    case ServerMessage(text) => Outcome(text, None)
    case TimedOut => Outcome(RequestTimeout, None)
    case NoConnection => Outcome(RequestNoConnection, None)
    case Unauthorized => Outcome(RequestAuth, Some(Redirect(LoginPath, 2000)))
    case Forbidden => Outcome(RequestAuth, Some(Redirect(LoginPath, 2000)))
    case NotFound => Outcome(RequestNotFound, None)
    case ServerFault(_) => Outcome(RequestServerFault, None)
    case Unclassified => Outcome(RequestDefault, None)
  }

  /** `getApiErrorMessage`. */
  function ApiErrorOutcome(xhr: Xhr, textStatus: string): (o: Outcome)
    ensures o.redirect.Some? <==> Classify(xhr, textStatus) == Unauthorized
    ensures o.redirect.Some? ==> o.redirect.value == Redirect(LoginPath, 3000)
    ensures HasServerError(xhr) ==> o.message == xhr.serverError.value
    ensures Classify(xhr, textStatus).ServerFault? ==>
      o.message == ApiServerFaultPrefix + IntToDecimal(xhr.status) + ApiServerFaultSuffix
    ensures Classify(xhr, textStatus) == Unclassified ==> o.message == ApiDefault
  {
    match Classify(xhr, textStatus)
    case ServerMessage(text) => Outcome(text, None)
    case TimedOut => Outcome(ApiTimeout, None)
    case NoConnection => Outcome(ApiNoConnection, None)
    case Unauthorized => Outcome(ApiSessionExpired, Some(Redirect(LoginPath, 3000)))
    case Forbidden => Outcome(ApiForbidden, None)
    case NotFound => Outcome(ApiNotFound, None)
    case ServerFault(code) => Outcome(ApiServerFaultPrefix + IntToDecimal(code) + ApiServerFaultSuffix, None)
    case Unclassified => Outcome(ApiDefault, None)
  }

  /** A server-supplied error text wins over the status, whatever the status. */
  lemma ServerTextWins(text: string, s1: int, s2: int, t1: string, t2: string)
    requires text != ""
    ensures ApiErrorOutcome(Xhr(Some(text), s1), t1) == ApiErrorOutcome(Xhr(Some(text), s2), t2) == Outcome(text, None)
    ensures RequestErrorOutcome(Xhr(Some(text), s1), t1) == RequestErrorOutcome(Xhr(Some(text), s2), t2) == Outcome(text, None)
  {
  }

  /** Without a server text, a timeout gives the same outcome whatever the status. */
  lemma TimeoutIgnoresStatus(e: Option<string>, s1: int, s2: int)
    requires !HasServerError(Xhr(e, s1))
    ensures ApiErrorOutcome(Xhr(e, s1), "timeout") == ApiErrorOutcome(Xhr(e, s2), "timeout")
    ensures RequestErrorOutcome(Xhr(e, s1), "timeout") == RequestErrorOutcome(Xhr(e, s2), "timeout")
    ensures ApiErrorOutcome(Xhr(e, s1), "timeout").redirect == None
  {
  }

  lemma {:induction false} NatToDecimalInjective(a: nat, b: nat)
    requires NatToDecimal(a) == NatToDecimal(b)
    ensures a == b
  {
    DecimalRoundTrip(a);
    DecimalRoundTrip(b);
  }

  /** The server-fault message of `getApiErrorMessage` names the status: two
      different statuses of 500 or more never give the same message. */
  lemma ServerFaultNamesStatus(e: Option<string>, t: string, s1: int, s2: int)
    requires ApiErrorOutcome(Xhr(e, s1), t).message == ApiErrorOutcome(Xhr(e, s2), t).message
    requires Classify(Xhr(e, s1), t).ServerFault? && Classify(Xhr(e, s2), t).ServerFault?
    ensures s1 == s2
  {
    var pre := ApiServerFaultPrefix;
    var post := ApiServerFaultSuffix;
    var d1 := NatToDecimal(s1);
    var d2 := NatToDecimal(s2);
    var m1 := pre + d1 + post;
    var m2 := pre + d2 + post;
    assert m1 == m2;
    assert |d1| == |d2|;
    assert d1 == m1[|pre|..|pre| + |d1|];
    assert d2 == m2[|pre|..|pre| + |d2|];
    NatToDecimalInjective(s1, s2);
  }
}
