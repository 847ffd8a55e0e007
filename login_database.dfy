/** `Database`: the PostgreSQL whitelist. `login_table` maps a login to its `is_admin`
    flag; `sessions` maps a Telegram id (unique) to the login it is bound to, through a
    foreign key that deletes a login's sessions with it (ON DELETE CASCADE). */
module LoginDatabase {
  import opened Wrappers
  import opened Exceptions

  /** The Telegram ids whose session is bound to `login`. */
  function BoundTo(sessions: map<int, string>, login: string): (ids: set<int>)
    ensures forall t :: t in ids <==> t in sessions && sessions[t] == login
  {
    set t | t in sessions.Keys && sessions[t] == login
  }

  /** `sessions` after the cascade of deleting `login`. */
  function CascadeDelete(sessions: map<int, string>, login: string): (s: map<int, string>)
    ensures s.Keys == sessions.Keys - BoundTo(sessions, login)
    ensures forall t :: t in s ==> s[t] == sessions[t]
  {
    map t | t in sessions.Keys && sessions[t] != login :: sessions[t]
  }

  class Database {
    var logins: map<string, bool>
    var sessions: map<int, string>

    /** Referential integrity: every session names an existing login. */
    ghost predicate Valid()
      reads this
    {
      forall t :: t in sessions ==> sessions[t] in logins
    }

    /** The tables as the database holds them; the foreign key keeps them consistent. */
    constructor Open(logins: map<string, bool>, sessions: map<int, string>)
      requires forall t :: t in sessions ==> sessions[t] in logins
      ensures Valid() && this.logins == logins && this.sessions == sessions
    {
      this.logins := logins;
      this.sessions := sessions;
    }

    /** `add_login`: inserts a non-admin login; an existing row is left as it is. */
    method AddLogin(login: string)
      requires Valid()
      modifies this
      ensures Valid()
      ensures login in old(logins) ==> logins == old(logins)
      ensures login !in old(logins) ==> logins == old(logins)[login := false]
      ensures sessions == old(sessions)
    {
      if login !in logins {
        logins := logins[login := false];
      }
    }

    /** `remove_login`: deletes that login; its sessions go with it by the cascade. */
    method RemoveLogin(login: string)
      requires Valid()
      modifies this
      ensures Valid()
      ensures logins == old(logins) - {login}
      ensures sessions == CascadeDelete(old(sessions), login)
    {
      logins := logins - {login};
      sessions := CascadeDelete(sessions, login);
    }

    /** `login_exists`: whether a `login_table` row has exactly that login. */
    method LoginExists(login: string) returns (r: bool)
      ensures r <==> login in logins
    {
      r := login in logins;
    }

    /** `delete_login_with_tg_ids`: in one transaction, reads the Telegram ids bound to the
        login, then deletes the login and, by the cascade, those sessions. */
    method DeleteLoginWithTgIds(login: string) returns (ids: set<int>)
      requires Valid()
      modifies this
      ensures Valid()
      ensures ids == BoundTo(old(sessions), login)
      ensures logins == old(logins) - {login}
      ensures sessions == CascadeDelete(old(sessions), login)
      ensures BoundTo(sessions, login) == {}
    {
      ids := BoundTo(sessions, login);
      logins := logins - {login};
      sessions := CascadeDelete(sessions, login);
    }

    /** `set_admin_status`: an UPDATE of that login's flag; no row is created for an unknown login. */
    method SetAdminStatus(login: string, admin: bool)
      requires Valid()
      modifies this
      ensures Valid()
      ensures login in old(logins) ==> logins == old(logins)[login := admin]
      ensures login !in old(logins) ==> logins == old(logins)
      ensures sessions == old(sessions)
    {
      if login in logins {
        logins := logins[login := admin];
      }
    }

    /** `is_user_admin`: the login's flag when a session binds `tgId` to that login, else `None`. */
    method IsUserAdmin(login: string, tgId: int) returns (r: Option<bool>)
      ensures r.Some? <==> tgId in sessions && sessions[tgId] == login && login in logins
      ensures r.Some? ==> r.value == logins[login]
    {
      if tgId in sessions && sessions[tgId] == login && login in logins {
        r := Some(logins[login]);
      } else {
        r := None;
      }
    }

    /** `add_session`: first writer wins per Telegram id (ON CONFLICT DO NOTHING); a new
        session for a login that does not exist violates the foreign key. */
    method AddSession(tgId: int, login: string) returns (r: Result<(), Exc>)
      requires Valid()
      modifies this
      ensures Valid()
      ensures logins == old(logins)
      ensures tgId in old(sessions) ==> r == Ok(()) && sessions == old(sessions)
      ensures tgId !in old(sessions) && login !in logins ==> r == Err(ForeignKeyViolation) && sessions == old(sessions)
      ensures tgId !in old(sessions) && login in logins ==> r == Ok(()) && sessions == old(sessions)[tgId := login]
    {
      if tgId in sessions {
        return Ok(());
      }
      if login !in logins {
        return Err(ForeignKeyViolation);
      }
      sessions := sessions[tgId := login];
      r := Ok(());
    }

    /** `remove_session`: deletes only the session of that Telegram id. */
    method RemoveSession(tgId: int)
      requires Valid()
      modifies this
      ensures Valid()
      ensures sessions == old(sessions) - {tgId}
      ensures logins == old(logins)
    {
      sessions := sessions - {tgId};
    }
  }

  /** Binding one Telegram id twice, to two logins: whatever binding the first call leaves stays. */
  method SessionFirstWriterWins(logins: map<string, bool>, sessions: map<int, string>, tgId: int, first: string, second: string)
    returns (r1: Result<(), Exc>, r2: Result<(), Exc>, bound: Option<string>)
    requires forall t :: t in sessions ==> sessions[t] in logins
    requires first in logins
    ensures r1 == Ok(()) && r2 == Ok(())
    ensures tgId in sessions ==> bound == Some(sessions[tgId])
    ensures tgId !in sessions ==> bound == Some(first)
  {
    var db := new Database.Open(logins, sessions);
    r1 := db.AddSession(tgId, first);
    r2 := db.AddSession(tgId, second);
    bound := if tgId in db.sessions then Some(db.sessions[tgId]) else None;
  }

  /** A set of Telegram ids that is not empty has a member. */
  lemma SomeMember(s: set<int>)
    ensures s == {} || exists t :: t in s
  {
    if forall t :: t !in s {
      assert s == {};
    }
  }

  /** Deleting a login reports every id bound to it; afterwards the login is gone, and asking
      `is_user_admin` about it with any of those ids answers `None`. */
  method DeleteReportsBoundIds(logins: map<string, bool>, sessions: map<int, string>, login: string)
    returns (ids: set<int>, stillExists: bool, admin: map<int, Option<bool>>)
    requires forall t :: t in sessions ==> sessions[t] in logins
    ensures ids == (set t | t in sessions && sessions[t] == login)
    ensures !stillExists
    ensures admin.Keys == ids && forall t :: t in admin ==> admin[t] == None
  {
    var db := new Database.Open(logins, sessions);
    ids := db.DeleteLoginWithTgIds(login);
    stillExists := db.LoginExists(login);
    admin := map[];
    var rest := ids;
    while rest != {}
      invariant rest <= ids && admin.Keys == ids - rest
      invariant forall t :: t in admin ==> admin[t] == None
      invariant BoundTo(db.sessions, login) == {}
      decreases |rest|
    {
      SomeMember(rest);
      var t :| t in rest;
      var a := db.IsUserAdmin(login, t);
      admin := admin[t := a];
      rest := rest - {t};
    }
  }
}
