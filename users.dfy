/**
  The web front end's user store: a JSON object from user name to a user
  record, written back after every change, and the session user built from
  a record. Password hashing is not modelled: `add_user` and
  `update_password` receive the hash as `hashed`, and `authenticate`
  receives the hash check as `check`. The write is `writeOk`, the clock
  `now`; `ids` holds the user names in insertion order.
*/
module Users {
  import opened PyValues
  import opened DateTimes
  import TempCodes

  type Record = TempCodes.Record

  /** The roles a user may hold. */
  const Roles: seq<string> := ["admin", "agent"]

  /** `add_user`'s role check: anything but admin or agent becomes agent. */
  function NormalRole(role: string): (r: string)
    ensures r in Roles
    ensures role in Roles ==> r == role
  {
    if role in Roles then role else "agent"
  }

  /** The record `add_user` writes for a checked role: never logged in, dark theme. */
  function NewUser(hashed: string, role: string, active: Value, now: DateTime): (r: Record)
    requires Valid(now)
    ensures r.Keys == {"password_hash", "role", "active", "created_at", "last_login", "theme"}
    ensures r["role"] == Str(role) && r["active"] == active
    ensures r["last_login"] == Null && r["theme"] == Str("dark")
  {
    map["password_hash" := Str(hashed), "role" := Str(role), "active" := active,
        "created_at" := Str(TempCodes.IsoFormat(now)), "last_login" := Null, "theme" := Str("dark")]
  }

  /** The listing form of a record: its name added, its password hash removed. */
  function Listed(name: string, r: Record): (l: Record)
    ensures "password_hash" !in l && "username" in l && l["username"] == Str(name)
    ensures forall k :: k in r && k != "password_hash" && k != "username" ==> k in l && l[k] == r[k]
  {
    r["username" := Str(name)] - {"password_hash"}
  }

  /** The names of the store in insertion order, each once. */
  ghost predicate Ordered(ids: seq<string>, users: map<string, Record>) {
    (forall i, j :: 0 <= i < j < |ids| ==> ids[i] != ids[j])
    && forall k :: k in users <==> k in ids
  }

  datatype Stored = Stored(ids: seq<string>, users: map<string, Record>)

  class UserDatabase {
    var ids: seq<string>
    var users: map<string, Record>

    ghost predicate Valid()
      reads this
    {
      Ordered(ids, users)
    }

    /**
      `__init__`: the stored users, or none when the file is missing or
      unreadable; an empty store is seeded with the `admin` user.
      `adminHash` is the hash of the default password.
    */
    constructor (stored: Option<Stored>, adminHash: string, now: DateTime, writeOk: bool)
      requires DateTimes.Valid(now)
      requires stored.Some? ==> Ordered(stored.value.ids, stored.value.users)
      ensures Valid()
      ensures stored.Some? && stored.value.users != map[] ==> ids == stored.value.ids && users == stored.value.users
      ensures !(stored.Some? && stored.value.users != map[]) ==>
        users == map["admin" := NewUser(adminHash, "admin", Bool(true), now)]
    {
      if stored.Some? {
        ids := stored.value.ids;
        users := stored.value.users;
      } else {
        ids := [];
        users := map[];
      }
      new;
      if users == map[] {
        var _ := AddUser("admin", "nukiadmin", "admin", Bool(true), adminHash, now, writeOk);
      }
    }

    /**
      `add_user`: an empty name or password is refused; otherwise a fresh
      record, with its role normalised, replaces any earlier one.
    */
    method AddUser(username: string, password: string, role: string, active: Value, hashed: string, now: DateTime, writeOk: bool)
      returns (ok: bool)
      requires Valid() && DateTimes.Valid(now)
      modifies this
      ensures Valid()
      ensures username == "" || password == "" ==> !ok && ids == old(ids) && users == old(users)
      ensures username != "" && password != "" ==>
        ok == writeOk
        && users == old(users)[username := NewUser(hashed, NormalRole(role), active, now)]
        && ids == (if username in old(users) then old(ids) else old(ids) + [username])
    {
      if username == "" || password == "" {
        return false;
      }
      var r := role;
      if r !in Roles {
        r := "agent";
      }
      if username !in users {
        ids := ids + [username];
      }
      assert r == NormalRole(role);
      users := users[username := NewUser(hashed, r, active, now)];
      ok := writeOk;
    }

    /** `get_user`. */
    function GetUser(username: string): (r: Option<Record>)
      reads this
      ensures r.Some? <==> username in users
      ensures r.Some? ==> r.value == users[username]
    {
      if username in users then Some(users[username]) else None
    }

    /**
      `authenticate` at `now`: an unknown, empty or inactive record fails;
      a matching password stamps that user's `last_login` and nothing else.
      The result does not depend on whether the write succeeds.
    */
    method Authenticate(username: string, password: string, check: (Value, string) -> bool, now: DateTime)
      returns (ok: bool)
      requires Valid() && DateTimes.Valid(now)
      modifies this`users
      ensures Valid()
      ensures ok <==> (username in old(users) && old(users)[username] != map[]
        && Truthy(if "active" in old(users)[username] then old(users)[username]["active"] else Bool(true))
        && check(if "password_hash" in old(users)[username] then old(users)[username]["password_hash"] else Str(""), password))
      ensures ok ==> users == old(users)[username := old(users)[username]["last_login" := Str(TempCodes.IsoFormat(now))]]
      ensures !ok ==> users == old(users)
    {
      var user := GetUser(username);
      if user.None? || user.value == map[] {
        return false;
      }
      var active := if "active" in user.value then user.value["active"] else Bool(true);
      if !Truthy(active) {
        return false;
      }
      var hash := if "password_hash" in user.value then user.value["password_hash"] else Str("");
      if check(hash, password) {
        users := users[username := users[username]["last_login" := Str(TempCodes.IsoFormat(now))]];
        return true;
      }
      return false;
    }

    /** `update_password`: an unknown user is refused. */
    method UpdatePassword(username: string, hashed: string, writeOk: bool) returns (ok: bool)
      requires Valid()
      modifies this`users
      ensures Valid()
      ensures username !in old(users) ==> !ok && users == old(users)
      ensures username in old(users) ==>
        ok == writeOk && users == old(users)[username := old(users)[username]["password_hash" := Str(hashed)]]
    {
      if username !in users {
        return false;
      }
      users := users[username := users[username]["password_hash" := Str(hashed)]];
      ok := writeOk;
    }

    /** `update_role`: an unknown user or a role other than admin or agent is refused. */
    method UpdateRole(username: string, newRole: string, writeOk: bool) returns (ok: bool)
      requires Valid()
      modifies this`users
      ensures Valid()
      ensures username !in old(users) || newRole !in Roles ==> !ok && users == old(users)
      ensures username in old(users) && newRole in Roles ==>
        ok == writeOk && users == old(users)[username := old(users)[username]["role" := Str(newRole)]]
    {
      if username !in users {
        return false;
      }
      if newRole !in Roles {
        return false;
      }
      users := users[username := users[username]["role" := Str(newRole)]];
      ok := writeOk;
    }

    /** `update_active`: an unknown user is refused. */
    method UpdateActive(username: string, active: Value, writeOk: bool) returns (ok: bool)
      requires Valid()
      modifies this`users
      ensures Valid()
      ensures username !in old(users) ==> !ok && users == old(users)
      ensures username in old(users) ==>
        ok == writeOk && users == old(users)[username := old(users)[username]["active" := active]]
    {
      if username !in users {
        return false;
      }
      users := users[username := users[username]["active" := active]];
      ok := writeOk;
    }

    /** `update_theme`: an unknown user is refused. */
    method UpdateTheme(username: string, theme: Value, writeOk: bool) returns (ok: bool)
      requires Valid()
      modifies this`users
      ensures Valid()
      ensures username !in old(users) ==> !ok && users == old(users)
      ensures username in old(users) ==>
        ok == writeOk && users == old(users)[username := old(users)[username]["theme" := theme]]
    {
      if username !in users {
        return false;
      }
      users := users[username := users[username]["theme" := theme]];
      ok := writeOk;
    }

    /** `delete_user`: an unknown user and `admin` are refused; otherwise exactly that user goes. */
    method DeleteUser(username: string, writeOk: bool) returns (ok: bool)
      requires Valid()
      modifies this
      ensures Valid()
      ensures username !in old(users) || username == "admin" ==> !ok && users == old(users) && ids == old(ids)
      ensures username in old(users) && username != "admin" ==>
        ok == writeOk && users == old(users) - {username} && ids == TempCodes.Without(old(ids), username)
      ensures "admin" in old(users) ==> "admin" in users
    {
      if username !in users {
        return false;
      }
      if username == "admin" {
        return false;
      }
      TempCodes.WithoutDistinct(ids, username);
      users := users - {username};
      ids := TempCodes.Without(ids, username);
      ok := writeOk;
    }

    /** `get_all_users`: one entry per user, in insertion order, named and without its hash. */
    method GetAllUsers() returns (r: seq<Record>)
      requires Valid()
      ensures |r| == |ids|
      ensures forall i :: 0 <= i < |ids| ==> r[i] == Listed(ids[i], users[ids[i]])
      ensures forall i :: 0 <= i < |r| ==> "password_hash" !in r[i]
    {
      r := [];
      for i := 0 to |ids|
        invariant |r| == i
        invariant forall j :: 0 <= j < i ==> r[j] == Listed(ids[j], users[ids[j]])
      {
        var data := users[ids[i]];
        var user := data["username" := Str(ids[i])];
        user := user - {"password_hash"};
        r := r + [user];
      }
    }

    /** `user_exists`. */
    predicate UserExists(username: string)
      reads this
    {
      username in users
    }
  }

  /** The session user; its fields are never changed after construction. */
  datatype User = User(username: string, role: Value, active: Value, theme: Value)
  {
    predicate IsAdmin() { role == Str("admin") }
    predicate IsAgent() { role == Str("agent") }
    function IsActive(): Value { active }
  }

  /** `User.from_db_user`: no record (or an empty one) is no user; missing fields take their defaults. */
  function FromDbUser(dbUser: Option<Record>, username: string): (u: Option<User>)
    ensures dbUser.None? || dbUser.value == map[] ==> u.None?
    ensures dbUser.Some? && dbUser.value != map[] ==>
      u.Some? && u.value.username == username
      && u.value.role == (if "role" in dbUser.value then dbUser.value["role"] else Str("agent"))
      && u.value.active == (if "active" in dbUser.value then dbUser.value["active"] else Bool(true))
      && u.value.theme == (if "theme" in dbUser.value then dbUser.value["theme"] else Str("dark"))
  {
    if dbUser.None? || dbUser.value == map[] then None
    else
      var r := dbUser.value;
      Some(User(username,
                if "role" in r then r["role"] else Str("agent"),
                if "active" in r then r["active"] else Bool(true),
                if "theme" in r then r["theme"] else Str("dark")))
  }

  /**
    A user added through `add_user` comes back as a session user with the
    normalised role, the given active flag and the dark theme; they are an
    admin exactly when they were added as one.
  */
  lemma AddedUserLoads(username: string, hashed: string, role: string, active: Value, now: DateTime)
    requires Valid(now)
    ensures FromDbUser(Some(NewUser(hashed, NormalRole(role), active, now)), username)
         == Some(User(username, Str(NormalRole(role)), active, Str("dark")))
    ensures FromDbUser(Some(NewUser(hashed, NormalRole(role), active, now)), username).value.IsAdmin() <==> role == "admin"
  {
    var r := NewUser(hashed, NormalRole(role), active, now);
    assert "role" in r && "active" in r && "theme" in r;
  }

  /** A record without a role loads as an agent, never as an admin. */
  lemma MissingRoleIsAgent(r: Record, username: string)
    requires r != map[] && "role" !in r
    ensures FromDbUser(Some(r), username).value.IsAgent()
    ensures !FromDbUser(Some(r), username).value.IsAdmin()
  {
  }
}
