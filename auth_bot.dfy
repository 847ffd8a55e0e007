/** `AuthBot`: a login whitelist kept in a JSON file of the form
    `{"users": {login: {"is_admin": bool, "tg_id": [int, ...]}}}`.
    Every method reads the file, changes the `users` mapping and writes it back;
    the model keeps the parsed mapping, or `None` while the file does not exist.
    The constructor always leaves a file behind, and no method here deletes it:
    `db` is `None` only when the file was removed by something outside the
    program between two calls, which is when the source's missing-file branches run. */
module JsonAuthStore {
  import opened Wrappers
  import opened Exceptions

  datatype UserRecord = UserRecord(isAdmin: bool, tgIds: seq<int>)

  type Users = map<string, UserRecord>

  predicate NoDuplicates(s: seq<int>)
  {
    forall i, j :: 0 <= i < j < |s| ==> s[i] != s[j]
  }

  /** No login lists the same Telegram id twice. */
  predicate SessionsDistinct(u: Users)
  {
    forall l :: l in u ==> NoDuplicates(u[l].tgIds)
  }

  class AuthBot {
    /** The `users` mapping of the database file; `None` while the file does not exist. */
    var db: Option<Users>

    /** `__init__`: opens the given file and runs `_init_db`. */
    constructor (file: Option<Users>)
      ensures file.None? ==> db == Some(map[])
      ensures file.Some? ==> db == file
    {
      db := file;
      new;
      InitDb();
    }

    /** `_init_db`: writes `{"users": {}}` only when the file is missing. */
    method InitDb()
      modifies this
      ensures old(db).None? ==> db == Some(map[])
      ensures old(db).Some? ==> db == old(db)
    {
      if db.None? {
        db := Some(map[]);
      }
    }

    /** `register_user`: adds a login that is not yet present, as a non-admin with no sessions.
        Opening a missing file raises. */
    method RegisterUser(login: string) returns (r: Result<bool, Exc>)
      modifies this
      ensures old(db).None? ==> r == Err(FileNotFound) && db == old(db)
      ensures old(db).Some? && login in old(db).value ==> r == Ok(false) && db == old(db)
      ensures old(db).Some? && login !in old(db).value ==>
                r == Ok(true) && db == Some(old(db).value[login := UserRecord(false, [])])
    {
      if db.None? {
        return Err(FileNotFound);
      }
      var users := db.value;
      if login in users {
        return Ok(false);
      }
      db := Some(users[login := UserRecord(false, [])]);
      r := Ok(true);
    }

    /** `add_session`: appends `tgId` to the login's list when it is not there yet; an unknown
        login or a missing file makes the caught exception answer False. */
    method AddSession(login: string, tgId: int) returns (added: bool)
      modifies this
      ensures added <==> old(db).Some? && login in old(db).value && tgId !in old(db).value[login].tgIds
      ensures added ==> db == Some(old(db).value[login := old(db).value[login].(tgIds := old(db).value[login].tgIds + [tgId])])
      ensures !added ==> db == old(db)
      ensures old(db).Some? && SessionsDistinct(old(db).value) ==> db.Some? && SessionsDistinct(db.value)
    {
      if db.None? || login !in db.value {
        return false;
      }
      var users := db.value;
      var rec := users[login];
      if tgId in rec.tgIds {
        return false;
      }
      db := Some(users[login := rec.(tgIds := rec.tgIds + [tgId])]);
      added := true;
    }

    /** `is_admin`: the stored flag; False for an unknown login or a missing file. */
    method IsAdmin(login: string) returns (r: bool)
      ensures r <==> db.Some? && login in db.value && db.value[login].isAdmin
    {
      if db.Some? && login in db.value {
        r := db.value[login].isAdmin;
      } else {
        r := false;
      }
    }

    /** `user_exists`: whether the login is a key of `users`; False when the file is missing. */
    method UserExists(login: string) returns (r: bool)
      ensures r <==> db.Some? && login in db.value
    {
      r := db.Some? && login in db.value;
    }

    /** `remove_user`: deletes the login and returns the Telegram ids it had; an unknown login
        or a missing file answers `[]` and changes nothing. */
    method RemoveUser(login: string) returns (ids: seq<int>)
      modifies this
      ensures old(db).None? || login !in old(db).value ==> ids == [] && db == old(db)
      ensures old(db).Some? && login in old(db).value ==>
                ids == old(db).value[login].tgIds && db == Some(old(db).value - {login})
    {
      if db.None? || login !in db.value {
        return [];
      }
      var users := db.value;
      ids := users[login].tgIds;
      db := Some(users - {login});
    }
  }

  /** Registering twice: the second call answers False and the record is the first one's. */
  method RegisterTwice(file: Users, login: string) returns (first: Result<bool, Exc>, second: Result<bool, Exc>)
    requires login !in file
    ensures first == Ok(true) && second == Ok(false)
  {
    var bot := new AuthBot(Some(file));
    first := bot.RegisterUser(login);
    second := bot.RegisterUser(login);
  }

  /** Adding the same session twice: the second call answers False and the list holds it once. */
  method AddSessionTwice(file: Users, login: string, tgId: int) returns (first: bool, second: bool, ids: seq<int>)
    requires login in file && tgId !in file[login].tgIds
    ensures first && !second
    ensures ids == file[login].tgIds + [tgId]
  {
    var bot := new AuthBot(Some(file));
    first := bot.AddSession(login, tgId);
    second := bot.AddSession(login, tgId);
    ids := bot.RemoveUser(login);
  }
}
