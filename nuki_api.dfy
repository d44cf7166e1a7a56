/**
  The pure helpers of the lock-cloud client: the action and trigger tables,
  the resolution of an authorisation id to a user name over a fetched user
  list, and the normalisation of the ISO dates the activity log carries.
  The HTTP calls themselves are not modelled: the user list is a parameter.
*/
module NukiApi {
  import opened PyValues
  import opened DateTimes
  import opened Records

  const ActionNames: seq<string> :=
    ["Unlock", "Lock", "Unlatch", "Lock 'n' Go", "Lock 'n' Go with unlatch", "Full Lock"]

  /**
    `get_action_description`: a name with something besides white space is
    returned as it is; otherwise a known action code (1 to 6) is looked up;
    anything else is "Unknown Action".
  */
  function ActionDescription(e: LogEntry): (r: string)
    ensures e.name.Some? && Strip(e.name.value) != "" ==> r == e.name.value
    ensures !(e.name.Some? && Strip(e.name.value) != "") ==>
      var a := Norm(Get(e.action));
      (a.Int? && 1 <= a.i <= 6 ==> r == ActionNames[a.i - 1])
      && (!(a.Int? && 1 <= a.i <= 6) ==> r == "Unknown Action")
  {
    var name := if e.name.Some? then e.name.value else "";
    if name != "" && Strip(name) != "" then name
    else
      var a := Norm(Get(e.action));
      if a.Int? && 1 <= a.i <= 6 then ActionNames[a.i - 1] else "Unknown Action"
  }

  /** `get_trigger_description`: codes 0 to 7 by the table, anything else "Unknown Trigger". */
  function TriggerName(t: Value): (r: string)
    ensures Norm(t).Int? && 0 <= Norm(t).i < 8 ==> r == TriggerNames[Norm(t).i]
    ensures !(Norm(t).Int? && 0 <= Norm(t).i < 8) ==> r == "Unknown Trigger"
  {
    match TableIndex(t, |TriggerNames|)
    case Some(i) => TriggerNames[i]
    case None => "Unknown Trigger"
  }

  /** A user as the users endpoint lists it; `None` is a key that is not present. */
  datatype ApiUser = ApiUser(id: Option<Value>, name: Option<string>)

  /** Python `user.get('id') == target`. */
  predicate Matches(u: ApiUser, target: Value) {
    Norm(Get(u.id)) == Norm(target)
  }

  /** `user.get('name', 'Unknown User')`. */
  function NameOf(u: ApiUser): string {
    if u.name.Some? then u.name.value else "Unknown User"
  }

  /** The first user from position `from` on whose id equals `target`: the early-return loop of the lookup. */
  function FindFrom(users: seq<ApiUser>, target: Value, from: nat): (r: Option<nat>)
    requires from <= |users|
    ensures r.Some? ==> (from <= r.value < |users| && Matches(users[r.value], target)
      && forall k :: from <= k < r.value ==> !Matches(users[k], target))
    ensures r.None? ==> forall k :: from <= k < |users| ==> !Matches(users[k], target)
    decreases |users| - from
  {
    if from == |users| then None
    else if Matches(users[from], target) then Some(from)
    else FindFrom(users, target, from + 1)
  }

  function FindUser(users: seq<ApiUser>, target: Value): (r: Option<nat>)
    ensures r.Some? ==> (r.value < |users| && Matches(users[r.value], target)
      && forall k :: 0 <= k < r.value ==> !Matches(users[k], target))
    ensures r.None? ==> forall k :: 0 <= k < |users| ==> !Matches(users[k], target)
  {
    FindFrom(users, target, 0)
  }

  /** The id form tried after a direct miss: an int's string form, a digit string's integer value, or none. */
  function ConvertedId(authId: Value): Option<Value> {
    if authId.Int? || authId.Bool? then Some(Str(Show(authId)))
    else if authId.Str? && IsDigits(authId.s) then Some(Int(DigitsValue(authId.s)))
    else None
  }

  /**
    `get_user_name(auth_id)` over the fetched `users`: no id is the auto
    lock; otherwise the first user whose id equals the auth id, then the
    first whose id equals its converted form, else "Unknown User".
  */
  function UserName(authId: Value, users: seq<ApiUser>): (r: string)
    ensures authId.Null? ==> r == "Auto Lock"
    ensures !authId.Null? && users == [] ==> r == "Unknown User"
    ensures !authId.Null? && FindUser(users, authId).Some? ==> r == NameOf(users[FindUser(users, authId).value])
    ensures !authId.Null? && FindUser(users, authId).None? ==>
      match ConvertedId(authId)
      case None => r == "Unknown User"
      case Some(c) =>
        (FindUser(users, c).Some? ==> r == NameOf(users[FindUser(users, c).value]))
        && (FindUser(users, c).None? ==> r == "Unknown User")
  {
    if authId.Null? then "Auto Lock"
    else if users == [] then "Unknown User"
    else match FindUser(users, authId)
      case Some(k) => NameOf(users[k])
      case None =>
        match ConvertedId(authId)
        case None => "Unknown User"
        case Some(c) =>
          match FindUser(users, c)
          case Some(k) => NameOf(users[k])
          case None => "Unknown User"
  }

  /**
    A numeric auth id finds the user whose id is stored as its decimal
    string, and a digit-string auth id the user whose id is stored as a
    number, when no user carries the auth id as it is.
  */
  lemma ConvertedMatch(authId: Value, users: seq<ApiUser>, k: nat)
    requires k < |users| && (authId.Int? || (authId.Str? && IsDigits(authId.s)))
    requires forall j :: 0 <= j < |users| ==> !Matches(users[j], authId)
    requires authId.Int? ==> Get(users[k].id) == Str(IntToDecimal(authId.i))
    requires authId.Str? ==> Get(users[k].id) == Int(DigitsValue(authId.s))
    requires forall j :: 0 <= j < k ==> Norm(Get(users[j].id)) != Get(users[k].id)
    ensures UserName(authId, users) == NameOf(users[k])
  {
    var c := ConvertedId(authId).value;
    assert Matches(users[k], c);
    var f := FindUser(users, c);
    assert f.Some? && f.value <= k;
  }

  /** Python `s.replace(a, b)` for single characters. */
  function ReplaceChar(s: string, a: char, b: char): (r: string)
    ensures |r| == |s| && forall i :: 0 <= i < |s| ==> r[i] == (if s[i] == a then b else s[i])
  {
    seq(|s|, i requires 0 <= i < |s| => if s[i] == a then b else s[i])
  }

  /**
    `parse_date`: a falsy value is no date; a string holding 'T' loses
    everything from its first '.' on, has each 'T' replaced by a space and
    is read as `%Y-%m-%d %H:%M:%S`; any other string is a millisecond
    timestamp, read by `fromTimestamp` (the local-time conversion, which is
    not modelled); an integer or boolean makes the
    membership test raise, which the function turns into no date.
  */
  function ParseDate(v: Value, fromTimestamp: string -> Option<DateTime>): (r: Option<DateTime>)
    ensures !Truthy(v) ==> r == None
    ensures v.Str? && v.s != "" && 'T' in v.s ==> r == ParseStamp(ReplaceChar(Split(v.s, '.')[0], 'T', ' '))
    ensures v.Str? && 'T' !in v.s && v.s != "" ==>
      r == (if fromTimestamp(v.s).Some? && Valid(fromTimestamp(v.s).value) then fromTimestamp(v.s) else None)
    ensures v.Int? || v.Bool? ==> r == None
    ensures r.Some? ==> Valid(r.value)
    ensures v.Str? && 'T' in v.s && r.Some? ==> r.value.micro == 0
  {
    if !Truthy(v) then None
    else match v
      case Str(s) =>
        if 'T' in s then ParseStamp(ReplaceChar(Split(s, '.')[0], 'T', ' '))
        else
          // a time outside the calendar makes `fromtimestamp` raise
          var d := fromTimestamp(s);
          if d.Some? && Valid(d.value) then d else None
      case _ => None
  }

  /** The ISO form the cloud writes: the timestamp with a 'T' between date and time. */
  function IsoStamp(d: DateTime): (r: string)
    requires Valid(d)
  {
    FormatStamp(d)[..10] + "T" + FormatStamp(d)[11..]
  }

  lemma {:induction false} SplitHead(x: string, y: string, c: char)
    requires c !in x
    ensures Split(x + [c] + y, c)[0] == x
    decreases |x|
  {
    if x == [] {
      assert x + [c] + y == [c] + y;
    } else {
      assert (x + [c] + y)[1..] == x[1..] + [c] + y;
      SplitHead(x[1..], y, c);
      assert [x[0]] + x[1..] == x;
    }
  }

  lemma IsoBack(d: DateTime)
    requires Valid(d)
    ensures '.' !in IsoStamp(d) && 'T' in IsoStamp(d)
    ensures ReplaceChar(IsoStamp(d), 'T', ' ') == FormatStamp(d)
  {
    var s := FormatStamp(d);
    FormatPieces(d);
    assert StampShape(s);
    var x := IsoStamp(d);
    assert x[10] == 'T';
    forall i | 0 <= i < 19 ensures x[i] != '.' && (i != 10 ==> x[i] == s[i] && x[i] != 'T') {
      if i != 10 {
        assert IsDigit(s[i]) || s[i] == '-' || s[i] == ':';
      }
    }
  }

  /**
    An ISO date from the cloud, with any fraction and zone after a '.',
    reads back as the timestamp it writes (to the second).
  */
  lemma IsoRoundTrip(d: DateTime, tail: string, fromTimestamp: string -> Option<DateTime>)
    requires Valid(d)
    ensures ParseDate(Str(IsoStamp(d) + "." + tail), fromTimestamp) == Some(d.(micro := 0))
    ensures ParseDate(Str(IsoStamp(d)), fromTimestamp) == Some(d.(micro := 0))
  {
    IsoBack(d);
    var x := IsoStamp(d);
    SplitHead(x, tail, '.');
    assert x + "." + tail == x + ['.'] + tail;
    assert 'T' in x + "." + tail by {
      assert (x + "." + tail)[10] == 'T';
    }
    SplitNoSeparator(x, '.');
    ParseFormat(d);
  }

  /** Whatever follows the first '.' of an ISO date is ignored. */
  lemma FractionIgnored(x: string, tail: string, fromTimestamp: string -> Option<DateTime>)
    requires 'T' in x && '.' !in x
    ensures ParseDate(Str(x + "." + tail), fromTimestamp) == ParseDate(Str(x), fromTimestamp)
  {
    SplitHead(x, tail, '.');
    assert x + "." + tail == x + ['.'] + tail;
    SplitNoSeparator(x, '.');
    var i :| 0 <= i < |x| && x[i] == 'T';
    assert (x + "." + tail)[i] == 'T';
  }
}
