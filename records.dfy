/**
  The two shapes of event data in the monitor: the raw activity-log entry the
  lock cloud returns (a JSON object whose keys may be missing) and the event
  record the poll cycle builds for the notifiers. Also the trigger-code table
  that every message builder uses.
*/
module Records {
  import opened PyValues

  /**
    Python compares and hashes `True`/`False` like `1`/`0`; `Norm` maps a
    value to the representative Python's `==`, `in` and dict lookup see.
  */
  function Norm(v: Value): (r: Value)
    ensures !r.Bool?
    ensures r.Int? && v.Int? ==> r == v
    ensures v.Bool? ==> r == Int(if v.b then 1 else 0)
    ensures v.Null? || v.Str? ==> r == v
  {
    if v.Bool? then Int(if v.b then 1 else 0) else v
  }

  /** `dict.get(key)` on an optional key: a missing key reads as `None`. */
  function Get(o: Option<Value>): Value {
    if o.Some? then o.value else Null
  }

  /**
    A raw log entry as the cloud API delivers it; `None` is a key that is not
    present in the JSON object.
  */
  datatype LogEntry = LogEntry(
    id: Option<Value>,
    name: Option<string>,
    action: Option<Value>,
    trigger: Option<Value>,
    authId: Option<Value>,
    date: Option<Value>)

  /**
    The record the poll cycle hands to the notifiers. `action` and `trigger`
    are optional because the filter asks whether those keys are present.
  */
  datatype EventRecord = EventRecord(
    lockName: string,
    lockId: Value,
    eventType: string,
    action: Option<Value>,
    trigger: Option<Value>,
    userName: string,
    date: string,
    eventId: Value)

  const TriggerNames: seq<string> :=
    ["System", "Manual", "Button", "Automatic", "App", "Website", "Auto Lock", "Time Control"]

  /** The position `v` names in a table of `size` entries keyed 0, 1, ... (Python dict membership). */
  function TableIndex(v: Value, size: nat): (r: Option<nat>)
    ensures r.Some? <==> (Norm(v).Int? && 0 <= Norm(v).i < size)
    ensures r.Some? ==> r.value == Norm(v).i
  {
    var n := Norm(v);
    if n.Int? && 0 <= n.i < size then Some(n.i) else None
  }

  const UnknownPrefix := "Unknown ("

  /** The trigger description the message builders put into every notification. */
  function TriggerDescription(e: EventRecord): (r: string)
  {
    var t := Get(e.trigger);
    match TableIndex(t, |TriggerNames|)
    case Some(i) => TriggerNames[i]
    case None => UnknownPrefix + Show(t) + ")"
  }

  /**
    The description tells a known trigger from an unknown one, and for an
    unknown one the original value can be read back out of it.
  */
  lemma TriggerDescriptionCases(e: EventRecord)
    ensures var r := TriggerDescription(e);
      var t := Get(e.trigger);
      (TableIndex(t, 8).Some? <==> r in TriggerNames)
      && (TableIndex(t, 8).Some? ==> r == TriggerNames[Norm(t).i])
      && (TableIndex(t, 8).None? ==> |r| > |UnknownPrefix| && r[..|UnknownPrefix|] == UnknownPrefix
                                      && r[|UnknownPrefix|..|r| - 1] == Show(t) && r[|r| - 1] == ')')
  {
    var r := TriggerDescription(e);
    if TableIndex(Get(e.trigger), 8).None? {
      assert r[..|UnknownPrefix|] == UnknownPrefix;
      forall k | 0 <= k < |TriggerNames| ensures r != TriggerNames[k] {
        assert r[0] == 'U';
        assert k == 0 || k == 1 || k == 2 || k == 3 || k == 4 || k == 5 || k == 6 || k == 7;
        assert TriggerNames[k][0] != 'U';
      }
    }
  }
}
