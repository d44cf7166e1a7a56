/**
  The store of temporary access codes: a JSON object from code id to a code
  record, kept in memory and written back after every change. The write is
  the parameter `writeOk`; the clock is `now`; `datetime.fromisoformat` is
  the oracle `fromIso`. Python dictionaries keep insertion order, so the
  store is the map `codes` together with `ids`, its keys in that order.
*/
module TempCodes {
  import opened PyValues
  import opened DateTimes
  import opened Records
  import NukiApi

  /** A JSON object: a code record, or the `data` handed to an update. */
  type Record = map<string, Value>

  /** `record.get(key)`. */
  function Lookup(r: Record, key: string): Value {
    if key in r then r[key] else Null
  }

  /** `record.get('is_active', True)`. */
  predicate ActiveFlag(r: Record) {
    Truthy(if "is_active" in r then r["is_active"] else Bool(true))
  }

  /** The expiry handed to `add_code`: text as it is, or a `datetime`. */
  datatype Expiry = ExpiryText(s: string) | ExpiryDate(d: DateTime)

  /** Six digits of microseconds. */
  function Six(n: nat): (r: string)
    requires n < 1000000
    ensures |r| == 6
  {
    Two(n / 10000) + Two(n / 100 % 100) + Two(n % 100)
  }

  /** `datetime.isoformat()`: the fraction is written only when it is not zero. */
  function IsoFormat(d: DateTime): (r: string)
    requires Valid(d)
    ensures |r| == (if d.micro == 0 then 19 else 26)
  {
    FormatPieces(d);
    NukiApi.IsoStamp(d) + (if d.micro == 0 then "" else "." + Six(d.micro))
  }

  function ExpiryString(e: Expiry): string
    requires e.ExpiryDate? ==> Valid(e.d)
  {
    match e
    case ExpiryText(s) => s
    case ExpiryDate(d) => IsoFormat(d)
  }

  /** The checks `add_code` makes: every argument must be truthy (a `datetime` always is). */
  predicate Rejected(code: string, name: string, createdBy: string, expiry: Expiry) {
    code == "" || name == "" || createdBy == "" || expiry == ExpiryText("")
  }

  /** The record `add_code` stores: active and never used. */
  function NewCode(code: string, name: string, createdBy: string, expiry: Expiry, now: DateTime): (r: Record)
    requires Valid(now) && (expiry.ExpiryDate? ==> Valid(expiry.d))
    ensures r.Keys == {"code", "name", "created_by", "created_at", "expiry", "is_active", "last_used"}
    ensures r["is_active"] == Bool(true) && r["last_used"] == Null && r["code"] == Str(code)
    ensures ActiveFlag(r)
  {
    map["code" := Str(code), "name" := Str(name), "created_by" := Str(createdBy),
        "created_at" := Str(IsoFormat(now)), "expiry" := Str(ExpiryString(expiry)),
        "is_active" := Bool(true), "last_used" := Null]
  }

  /** `update_code`'s merge: the keys of `data` that the record already has take the new values. */
  function Overlay(r: Record, data: Record): (o: Record)
    ensures o.Keys == r.Keys
    ensures forall k :: k in r && k in data ==> o[k] == data[k]
    ensures forall k :: k in r && k !in data ==> o[k] == r[k]
  {
    map k | k in r :: if k in data then data[k] else r[k]
  }

  /** The record as the listing methods return it: a copy carrying its id. */
  function Tag(id: string, r: Record): (t: Record)
    ensures t.Keys == r.Keys + {"id"} && t["id"] == Str(id)
    ensures forall k :: k in r && k != "id" ==> t[k] == r[k]
  {
    r["id" := Str(id)]
  }

  /** The keys of `codes` in insertion order, each once. */
  ghost predicate Ordered(ids: seq<string>, codes: map<string, Record>) {
    (forall i, j :: 0 <= i < j < |ids| ==> ids[i] != ids[j])
    && forall k :: k in codes <==> k in ids
  }

  /** The copies of the records satisfying `p`, in insertion order, each tagged with its id. */
  function TaggedWhere(ids: seq<string>, codes: map<string, Record>, p: Record -> bool): (r: seq<Record>)
    requires forall k :: k in ids ==> k in codes
    ensures |r| <= |ids|
    ensures forall t :: t in r ==> exists i :: 0 <= i < |ids| && p(codes[ids[i]]) && t == Tag(ids[i], codes[ids[i]])
    ensures forall i :: 0 <= i < |ids| && p(codes[ids[i]]) ==> Tag(ids[i], codes[ids[i]]) in r
  {
    if ids == [] then []
    else
      var last := ids[|ids| - 1];
      TaggedWhere(ids[..|ids| - 1], codes, p) + (if p(codes[last]) then [Tag(last, codes[last])] else [])
  }

  /** The first position, from `from` on, whose record has `code` equal to `v`. */
  function FirstWithCode(ids: seq<string>, codes: map<string, Record>, v: Value, from: nat): (r: Option<nat>)
    requires from <= |ids| && forall k :: k in ids ==> k in codes
    ensures r.Some? ==> (from <= r.value < |ids| && Norm(Lookup(codes[ids[r.value]], "code")) == Norm(v)
      && forall k :: from <= k < r.value ==> Norm(Lookup(codes[ids[k]], "code")) != Norm(v))
    ensures r.None? ==> forall k :: from <= k < |ids| ==> Norm(Lookup(codes[ids[k]], "code")) != Norm(v)
    decreases |ids| - from
  {
    if from == |ids| then None
    else if Norm(Lookup(codes[ids[from]], "code")) == Norm(v) then Some(from)
    else FirstWithCode(ids, codes, v, from + 1)
  }

  /** `ids` without `key`. */
  function Without(ids: seq<string>, key: string): (r: seq<string>)
    ensures forall k :: k in r <==> k in ids && k != key
  {
    if ids == [] then []
    else Without(ids[..|ids| - 1], key) + (if ids[|ids| - 1] == key then [] else [ids[|ids| - 1]])
  }

  /** Removing a key from a list without repeats leaves a list without repeats. */
  lemma {:induction false} WithoutDistinct(ids: seq<string>, key: string)
    requires forall i, j :: 0 <= i < j < |ids| ==> ids[i] != ids[j]
    ensures forall i, j :: 0 <= i < j < |Without(ids, key)| ==> Without(ids, key)[i] != Without(ids, key)[j]
  {
    if ids != [] {
      var init := ids[..|ids| - 1];
      WithoutDistinct(init, key);
      assert ids[|ids| - 1] !in init;
    }
  }

  /** Python's ordering of naive datetimes: field by field, the year first. */
  predicate Before(a: DateTime, b: DateTime) {
    if a.year != b.year then a.year < b.year
    else if a.month != b.month then a.month < b.month
    else if a.day != b.day then a.day < b.day
    else if a.hour != b.hour then a.hour < b.hour
    else if a.minute != b.minute then a.minute < b.minute
    else if a.second != b.second then a.second < b.second
    else a.micro < b.micro
  }

  /** A parseable expiry: `fromisoformat` on a string; anything else raises and is skipped. */
  function ParsedExpiry(r: Record, fromIso: string -> Option<DateTime>): Option<DateTime> {
    var e := Lookup(r, "expiry");
    if Truthy(e) && e.Str? then fromIso(e.s) else None
  }

  /** `clean_expired_codes` flips a record exactly when it is active and its expiry is before `now`. */
  predicate Expired(r: Record, now: DateTime, fromIso: string -> Option<DateTime>) {
    var d := ParsedExpiry(r, fromIso);
    d.Some? && Before(d.value, now) && ActiveFlag(r)
  }

  /** `get_active_codes` lists a record exactly when it is active and its expiry is after `now`. */
  predicate Current(r: Record, now: DateTime, fromIso: string -> Option<DateTime>) {
    var d := ParsedExpiry(r, fromIso);
    d.Some? && ActiveFlag(r) && Before(now, d.value)
  }

  /** One record after `clean_expired_codes` at `now`. */
  function Deactivate(r: Record, now: DateTime, fromIso: string -> Option<DateTime>): Record
  {
    if Expired(r, now, fromIso) then r["is_active" := Bool(false)] else r
  }

  /** The store after `clean_expired_codes` at `now`. */
  function Deactivated(codes: map<string, Record>, now: DateTime, fromIso: string -> Option<DateTime>): (m: map<string, Record>)
    ensures m.Keys == codes.Keys
    ensures forall k :: k in codes ==> !Expired(m[k], now, fromIso)
  {
    map k | k in codes :: Deactivate(codes[k], now, fromIso)
  }

  /** The store after the cleaning loop has visited the keys `ks`. */
  function CleanedUpTo(codes: map<string, Record>, ks: seq<string>, now: DateTime, fromIso: string -> Option<DateTime>): map<string, Record>
  {
    if ks == [] then codes
    else
      var c := CleanedUpTo(codes, ks[..|ks| - 1], now, fromIso);
      var k := ks[|ks| - 1];
      if k in c then c[k := Deactivate(c[k], now, fromIso)] else c
  }

  /** The visited keys are cleaned, the others untouched, and no key comes or goes. */
  lemma {:induction false} CleanedAt(codes: map<string, Record>, ks: seq<string>, k: string, now: DateTime, fromIso: string -> Option<DateTime>)
    ensures k in CleanedUpTo(codes, ks, now, fromIso) <==> k in codes
    ensures k in codes ==> CleanedUpTo(codes, ks, now, fromIso)[k] == (if k in ks then Deactivate(codes[k], now, fromIso) else codes[k])
    decreases |ks|
  {
    if ks != [] {
      CleanedAt(codes, ks[..|ks| - 1], k, now, fromIso);
      if k in ks[..|ks| - 1] {
        assert k in ks;
      }
    }
  }

  /** Once the loop has visited every key, the store is the cleaned store. */
  lemma CleanedAll(codes: map<string, Record>, ids: seq<string>, now: DateTime, fromIso: string -> Option<DateTime>)
    requires forall k :: k in codes <==> k in ids
    ensures CleanedUpTo(codes, ids, now, fromIso) == Deactivated(codes, now, fromIso)
  {
    var c := CleanedUpTo(codes, ids, now, fromIso);
    forall k ensures k in c <==> k in codes {
      CleanedAt(codes, ids, k, now, fromIso);
    }
    forall k | k in codes ensures c[k] == Deactivated(codes, now, fromIso)[k] {
      CleanedAt(codes, ids, k, now, fromIso);
    }
  }

  /** Some key among `ks` names a record of `codes` that has expired at `now`. */
  predicate AnyExpired(codes: map<string, Record>, ks: seq<string>, now: DateTime, fromIso: string -> Option<DateTime>) {
    if ks == [] then false
    else
      var k := ks[|ks| - 1];
      AnyExpired(codes, ks[..|ks| - 1], now, fromIso) || (k in codes && Expired(codes[k], now, fromIso))
  }

  lemma {:induction false} AnyExpiredAt(codes: map<string, Record>, ks: seq<string>, now: DateTime, fromIso: string -> Option<DateTime>)
    ensures AnyExpired(codes, ks, now, fromIso)
        <==> exists j :: 0 <= j < |ks| && ks[j] in codes && Expired(codes[ks[j]], now, fromIso)
    decreases |ks|
  {
    if ks != [] {
      var init := ks[..|ks| - 1];
      AnyExpiredAt(codes, init, now, fromIso);
      if exists j :: 0 <= j < |ks| && ks[j] in codes && Expired(codes[ks[j]], now, fromIso) {
        var j :| 0 <= j < |ks| && ks[j] in codes && Expired(codes[ks[j]], now, fromIso);
        if j < |ks| - 1 {
          assert init[j] == ks[j];
        }
      }
      if AnyExpired(codes, init, now, fromIso) {
        var j :| 0 <= j < |init| && init[j] in codes && Expired(codes[init[j]], now, fromIso);
        assert ks[j] == init[j];
      }
    }
  }

  /** With every key listed, some listed key has expired exactly when some stored record has. */
  lemma AnyExpiredAll(codes: map<string, Record>, ids: seq<string>, now: DateTime, fromIso: string -> Option<DateTime>)
    requires forall k :: k in codes <==> k in ids
    ensures AnyExpired(codes, ids, now, fromIso) <==> exists k :: k in codes && Expired(codes[k], now, fromIso)
  {
    AnyExpiredAt(codes, ids, now, fromIso);
    if exists k :: k in codes && Expired(codes[k], now, fromIso) {
      var k :| k in codes && Expired(codes[k], now, fromIso);
      var j :| 0 <= j < |ids| && ids[j] == k;
    }
  }

  /** Cleaning twice changes nothing more than cleaning once. */
  lemma DeactivatedIdempotent(codes: map<string, Record>, now: DateTime, fromIso: string -> Option<DateTime>)
    ensures Deactivated(Deactivated(codes, now, fromIso), now, fromIso) == Deactivated(codes, now, fromIso)
  {
  }

  /** A code that expired before `now` is never one of the active codes at `now`, so cleaning leaves the active list as it was. */
  lemma CleaningKeepsActive(ids: seq<string>, codes: map<string, Record>, now: DateTime, fromIso: string -> Option<DateTime>)
    requires forall k :: k in ids ==> k in codes
    ensures TaggedWhere(ids, Deactivated(codes, now, fromIso), r => Current(r, now, fromIso))
         == TaggedWhere(ids, codes, r => Current(r, now, fromIso))
  {
    if ids != [] {
      var last := ids[|ids| - 1];
      CleaningKeepsActive(ids[..|ids| - 1], codes, now, fromIso);
      var r := codes[last];
      if Expired(r, now, fromIso) {
        assert ParsedExpiry(r["is_active" := Bool(false)], fromIso) == ParsedExpiry(r, fromIso);
      }
    }
  }

  datatype Stored = Stored(ids: seq<string>, codes: map<string, Record>)

  class TemporaryCodeDatabase {
    var ids: seq<string>
    var codes: map<string, Record>

    ghost predicate Valid()
      reads this
    {
      Ordered(ids, codes)
    }

    /** `_load_codes`: the stored object, or an empty store when the file is missing or unreadable. */
    constructor (stored: Option<Stored>)
      requires stored.Some? ==> Ordered(stored.value.ids, stored.value.codes)
      ensures Valid()
      ensures stored.Some? ==> ids == stored.value.ids && codes == stored.value.codes
      ensures stored.None? ==> ids == [] && codes == map[]
    {
      if stored.Some? {
        ids := stored.value.ids;
        codes := stored.value.codes;
      } else {
        ids := [];
        codes := map[];
      }
    }

    /** `get_code`: the record under `str(code_id)`. */
    function GetCode(codeId: Value): (r: Option<Record>)
      reads this
      ensures r.Some? <==> Show(codeId) in codes
      ensures r.Some? ==> r.value == codes[Show(codeId)]
    {
      if Show(codeId) in codes then Some(codes[Show(codeId)]) else None
    }

    /**
      `add_code`: a missing argument is refused; otherwise a fresh active
      record replaces whatever was stored under `codeId`.
    */
    method AddCode(codeId: string, code: string, name: string, createdBy: string, expiry: Expiry, now: DateTime, writeOk: bool)
      returns (ok: bool)
      requires Valid() && DateTimes.Valid(now) && (expiry.ExpiryDate? ==> DateTimes.Valid(expiry.d))
      modifies this
      ensures Valid()
      ensures Rejected(code, name, createdBy, expiry) ==> !ok && ids == old(ids) && codes == old(codes)
      ensures !Rejected(code, name, createdBy, expiry) ==>
        ok == writeOk
        && codes == old(codes)[codeId := NewCode(code, name, createdBy, expiry, now)]
        && ids == (if codeId in old(codes) then old(ids) else old(ids) + [codeId])
        && GetCode(Str(codeId)) == Some(NewCode(code, name, createdBy, expiry, now))
    {
      if code == "" || name == "" || createdBy == "" || expiry == ExpiryText("") {
        return false;
      }
      if codeId !in codes {
        ids := ids + [codeId];
      }
      codes := codes[codeId := NewCode(code, name, createdBy, expiry, now)];
      ok := writeOk;
    }

    /**
      `get_code_by_value`: the first record, in insertion order, whose code
      equals `v`; the stored record gains an `id` key on the way.
    */
    method GetCodeByValue(v: Value) returns (r: Option<Record>)
      requires Valid()
      modifies this`codes
      ensures Valid() && ids == old(ids)
      ensures FirstWithCode(ids, old(codes), v, 0).None? ==> r.None? && codes == old(codes)
      ensures FirstWithCode(ids, old(codes), v, 0).Some? ==>
        var id := ids[FirstWithCode(ids, old(codes), v, 0).value];
        r == Some(Tag(id, old(codes)[id])) && codes == old(codes)[id := Tag(id, old(codes)[id])]
    {
      var i := 0;
      while i < |ids|
        invariant 0 <= i <= |ids| && codes == old(codes)
        invariant FirstWithCode(ids, codes, v, 0) == FirstWithCode(ids, codes, v, i)
      {
        var id := ids[i];
        if Norm(Lookup(codes[id], "code")) == Norm(v) {
          codes := codes[id := Tag(id, codes[id])];
          return Some(codes[id]);
        }
        i := i + 1;
      }
      return None;
    }

    /** The loop of `update_code` over the given keys, writing those the record already has. */
    static method OverlayKeys(original: Record, data: Record) returns (record: Record)
      ensures record == Overlay(original, data)
    {
      record := original;
      var keys := data.Keys;
      while keys != {}
        invariant keys <= data.Keys
        invariant record.Keys == original.Keys
        invariant forall k :: k in record ==>
          record[k] == (if k in data && k !in keys then data[k] else original[k])
        decreases |keys|
      {
        var key :| key in keys;
        if key in record {
          record := record[key := data[key]];
        }
        keys := keys - {key};
      }
    }

    /** `update_code`: an unknown id is refused; otherwise only keys the record has are overwritten. */
    method UpdateCode(codeId: Value, data: Record, writeOk: bool) returns (ok: bool)
      requires Valid()
      modifies this`codes
      ensures Valid() && ids == old(ids)
      ensures Show(codeId) !in old(codes) ==> !ok && codes == old(codes)
      ensures Show(codeId) in old(codes) ==>
        ok == writeOk && codes == old(codes)[Show(codeId) := Overlay(old(codes)[Show(codeId)], data)]
    {
      var id := Show(codeId);
      if id !in codes {
        return false;
      }
      var record := OverlayKeys(codes[id], data);
      codes := codes[id := record];
      ok := writeOk;
    }

    /** `delete_code`: an unknown id is refused; otherwise exactly that id goes. */
    method DeleteCode(codeId: Value, writeOk: bool) returns (ok: bool)
      requires Valid()
      modifies this
      ensures Valid()
      ensures Show(codeId) !in old(codes) ==> !ok && codes == old(codes) && ids == old(ids)
      ensures Show(codeId) in old(codes) ==>
        ok == writeOk && codes == old(codes) - {Show(codeId)} && ids == Without(old(ids), Show(codeId))
    {
      var id := Show(codeId);
      if id !in codes {
        return false;
      }
      WithoutDistinct(ids, id);
      codes := codes - {id};
      ids := Without(ids, id);
      ok := writeOk;
    }

    /** `get_all_codes`: every record, tagged with its id, in insertion order. */
    method GetAllCodes() returns (r: seq<Record>)
      requires Valid()
      ensures r == TaggedWhere(ids, codes, _ => true)
      ensures |r| == |ids|
    {
      r := [];
      for i := 0 to |ids|
        invariant r == TaggedWhere(ids[..i], codes, _ => true)
        invariant |r| == i
      {
        assert ids[..i + 1][..i] == ids[..i];
        r := r + [Tag(ids[i], codes[ids[i]])];
      }
      assert ids[..|ids|] == ids;
    }

    /** `get_codes_by_creator`: the records whose `created_by` equals `username`. */
    function CodesByCreator(username: Value): (r: seq<Record>)
      requires Valid()
      reads this
      ensures forall t :: t in r ==> Norm(Lookup(t, "created_by")) == Norm(username)
      ensures forall i :: 0 <= i < |ids| && Norm(Lookup(codes[ids[i]], "created_by")) == Norm(username) ==>
        Tag(ids[i], codes[ids[i]]) in r
    {
      TaggedWhere(ids, codes, c => Norm(Lookup(c, "created_by")) == Norm(username))
    }

    /** One turn of the cleaning loop: the record under `id` is switched off when it has expired. */
    method DeactivateOne(id: string, now: DateTime, fromIso: string -> Option<DateTime>) returns (flipped: bool)
      requires id in codes
      modifies this`codes
      ensures flipped == Expired(old(codes)[id], now, fromIso)
      ensures codes == old(codes)[id := Deactivate(old(codes)[id], now, fromIso)]
    {
      var data := codes[id];
      var expiry := Lookup(data, "expiry");
      flipped := false;
      if Truthy(expiry) && expiry.Str? {
        var parsed := fromIso(expiry.s);
        if parsed.Some? && Before(parsed.value, now) && ActiveFlag(data) {
          codes := codes[id := data["is_active" := Bool(false)]];
          flipped := true;
        }
      }
    }

    /** `clean_expired_codes` at `now`: expired active codes are switched off, none is removed. */
    method CleanExpiredCodes(now: DateTime, fromIso: string -> Option<DateTime>, writeOk: bool) returns (ok: bool)
      requires Valid()
      modifies this`codes
      ensures Valid() && ids == old(ids)
      ensures codes == Deactivated(old(codes), now, fromIso)
      ensures ok == (if exists k :: k in old(codes) && Expired(old(codes)[k], now, fromIso) then writeOk else true)
    {
      var expired := [];
      for i := 0 to |ids|
        invariant codes == CleanedUpTo(old(codes), ids[..i], now, fromIso)
        invariant expired != [] <==> AnyExpired(old(codes), ids[..i], now, fromIso)
      {
        var id := ids[i];
        assert id !in ids[..i] by {
          forall j | 0 <= j < i ensures ids[..i][j] != id {
            assert ids[..i][j] == ids[j];
          }
        }
        CleanedAt(old(codes), ids[..i], id, now, fromIso);
        assert ids[..i + 1][..i] == ids[..i];
        var flipped := DeactivateOne(id, now, fromIso);
        if flipped {
          expired := expired + [id];
        }
      }
      assert ids[..|ids|] == ids;
      CleanedAll(old(codes), ids, now, fromIso);
      AnyExpiredAll(old(codes), ids, now, fromIso);
      if expired != [] {
        ok := writeOk;
      } else {
        ok := true;
      }
    }

    /** `get_active_codes` at `now`: the active codes whose expiry is still ahead, tagged with their ids. */
    method GetActiveCodes(now: DateTime, fromIso: string -> Option<DateTime>) returns (r: seq<Record>)
      requires Valid()
      ensures r == TaggedWhere(ids, codes, c => Current(c, now, fromIso))
      ensures forall t :: t in r ==> Current(t, now, fromIso)
    {
      r := [];
      for i := 0 to |ids|
        invariant r == TaggedWhere(ids[..i], codes, c => Current(c, now, fromIso))
      {
        assert ids[..i + 1][..i] == ids[..i];
        var id := ids[i];
        var data := codes[id];
        var expiry := Lookup(data, "expiry");
        if Truthy(expiry) && ActiveFlag(data) && expiry.Str? {
          var parsed := fromIso(expiry.s);
          if parsed.Some? && Before(now, parsed.value) {
            r := r + [Tag(id, data)];
          }
        }
      }
      assert ids[..|ids|] == ids;
    }
  }
}
