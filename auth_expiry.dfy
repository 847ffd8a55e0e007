/** One pass of `check_auth_expiry`: every user whose last authorisation is more than seven
    days old is told so, put back in the login state and has `last_auth` reset. Whether
    Telegram delivers the notice to a user is an input (`sendOk`). */
module AuthExpiry {
  import opened Wrappers
  import opened FsmStorage
  import opened Handlers

  /** `timedelta(days=7)`, in microseconds, the resolution of `datetime`. */
  const Week: int := 7 * 24 * 3600 * 1_000_000

  /** `last_auth is not None and now - last_auth > timedelta(days=7)`. */
  predicate Expired(lastAuth: Option<int>, now: int)
  {
    lastAuth.Some? && now - lastAuth.value > Week
  }

  /** The boundary is strict: exactly seven days after the authorisation it still holds, one
      microsecond later it has expired; a user without `last_auth` never expires. */
  lemma ExpiryIsStrict(authTime: int, now: int)
    ensures !Expired(None, now)
    ensures !Expired(Some(authTime), authTime + Week) && Expired(Some(authTime), authTime + Week + 1)
  {
  }

  /** The users a pass at `now` resets: expired, and the notice reached them. */
  function ResetUsers(users: map<int, Option<int>>, now: int, sendOk: int -> bool): (rs: set<int>)
    ensures forall u :: u in rs <==> u in users && Expired(users[u], now) && sendOk(u)
  {
    set u | u in users && Expired(users[u], now) && sendOk(u)
  }

  /** `user_storage` once the users of `rs` have had `last_auth` reset. */
  function ResetIn(users: map<int, Option<int>>, rs: set<int>): (users': map<int, Option<int>>)
    ensures users'.Keys == users.Keys
    ensures forall u :: u in users && u in rs ==> users'[u] == None
    ensures forall u :: u in users && u !in rs ==> users'[u] == users[u]
  {
    map u | u in users :: if u in rs then None else users[u]
  }

  /** The FSM table once the private chats of the users of `rs` are in the login state. */
  function LoginReset(t: Table, rs: set<int>): (t': Table)
    ensures t'.Keys == t.Keys + (set u | u in rs :: RowKey(u, u))
    ensures forall u :: u in rs ==> StateOf(t', RowKey(u, u)) == Some(LoginState) && DataOf(t', RowKey(u, u)) == DataOf(t, RowKey(u, u))
    ensures forall k :: k in t && !(k.chatId == k.userId && k.userId in rs) ==> t'[k] == t[k]
  {
    map k | k in t.Keys + (set u | u in rs :: RowKey(u, u)) ::
      if k.chatId == k.userId && k.userId in rs then Row(Some(LoginState), if k in t then t[k].data else Some(map[]))
      else t[k]
  }

  /** Resetting one more user is one more `set_state`. */
  lemma LoginResetStep(t: Table, rs: set<int>, u: int)
    ensures WithState(LoginReset(t, rs), RowKey(u, u), Some(LoginState)) == LoginReset(t, rs + {u})
  {
    var a := WithState(LoginReset(t, rs), RowKey(u, u), Some(LoginState));
    var b := LoginReset(t, rs + {u});
    assert a.Keys == b.Keys;
    forall k | k in a ensures a[k] == b[k] {
      if k == RowKey(u, u) && u !in rs {
        assert (k in LoginReset(t, rs)) == (k in t);
      }
    }
  }

  /** Resetting one more user's `last_auth`. */
  lemma ResetInStep(users: map<int, Option<int>>, rs: set<int>, u: int)
    requires u in users
    ensures ResetIn(users, rs)[u := None] == ResetIn(users, rs + {u})
  {
  }

  /** Before the first user nothing is reset. */
  lemma NothingResetYet(users: map<int, Option<int>>, t: Table)
    ensures ResetIn(users, {}) == users && LoginReset(t, {}) == t
  {
    assert (set u: int | u in {} :: RowKey(u, u)) == {};
  }

  /** The users reset so far, after one more user of the iteration. */
  lemma DoneStep(all: set<int>, seen: set<int>, u: int)
    ensures all * (seen + {u}) == all * seen + (if u in all then {u} else {})
  {
  }

  /** A pass of the sweep over `app`'s state, visiting the users of `user_storage` in the
      dictionary's iteration order `order`. The pass works on a copy of `user_storage`; each
      user's update touches only that user's entries. */
  method Sweep(app: Bot, botId: int, now: int, sendOk: int -> bool, order: seq<int>)
    requires forall u :: u in app.userStorage <==> u in order
    modifies app, app.fsm
    ensures app.userStorage == ResetIn(old(app.userStorage), ResetUsers(old(app.userStorage), now, sendOk))
    ensures app.fsm.table == LoginReset(old(app.fsm.table), ResetUsers(old(app.userStorage), now, sendOk))
  {
    var usersCopy := app.userStorage;
    ghost var t0 := app.fsm.table;
    ghost var all := ResetUsers(usersCopy, now, sendOk);
    ghost var seen: set<int> := {};
    ghost var done: set<int> := {};
    NothingResetYet(usersCopy, t0);
    var i := 0;
    while i < |order|
      invariant 0 <= i <= |order|
      invariant seen <= usersCopy.Keys
      invariant forall j :: 0 <= j < i ==> order[j] in seen
      invariant done == all * seen
      invariant app.userStorage == ResetIn(usersCopy, done)
      invariant app.fsm.table == LoginReset(t0, done)
    {
      var u := order[i];
      DoneStep(all, seen, u);
      if Expired(usersCopy[u], now) && sendOk(u) {
        app.fsm.SetState(StorageKey(botId, u, u), StateObj(LoginState));
        LoginResetStep(t0, done, u);
        ResetInStep(usersCopy, done, u);
        app.userStorage := app.userStorage[u := None];
        done := done + {u};
      }
      seen := seen + {u};
      i := i + 1;
    }
    forall u | u in usersCopy ensures u in seen {
      assert u in order;
    }
  }

  /** The users of `user_storage` after a pass. */
  function Swept(users: map<int, Option<int>>, now: int, sendOk: int -> bool): map<int, Option<int>>
  {
    ResetIn(users, ResetUsers(users, now, sendOk))
  }

  /** A user reset by one pass is left alone by every later pass, whenever it runs. */
  lemma ResetUserSparedLater(users: map<int, Option<int>>, now: int, later: int, ok1: int -> bool, ok2: int -> bool, u: int)
    requires u in ResetUsers(users, now, ok1)
    ensures u !in ResetUsers(Swept(users, now, ok1), later, ok2)
    ensures Swept(Swept(users, now, ok1), later, ok2)[u] == None
  {
  }

  /** A second pass at the same time can reset only users whose notice failed the first time. */
  lemma SecondPassRetriesFailedSends(users: map<int, Option<int>>, now: int, ok1: int -> bool, ok2: int -> bool)
    ensures ResetUsers(Swept(users, now, ok1), now, ok2) ==
            set u | u in users && Expired(users[u], now) && !ok1(u) && ok2(u)
  {
  }

  /** When every notice is delivered, a pass is idempotent: running it again at the same time
      resets nobody, so it leaves both `user_storage` and every FSM table as they are. */
  lemma SweepIdempotentWhenDelivered(users: map<int, Option<int>>, now: int, ok1: int -> bool, ok2: int -> bool)
    requires forall u :: u in users ==> ok1(u)
    ensures ResetUsers(Swept(users, now, ok1), now, ok2) == {}
    ensures Swept(Swept(users, now, ok1), now, ok2) == Swept(users, now, ok1)
    ensures forall t: Table :: LoginReset(t, ResetUsers(Swept(users, now, ok1), now, ok2)) == t
  {
    SecondPassRetriesFailedSends(users, now, ok1, ok2);
    var s1 := Swept(users, now, ok1);
    forall u ensures u !in ResetUsers(s1, now, ok2) {
      if u in users {
        assert ok1(u);
      }
    }
    assert ResetUsers(s1, now, ok2) == {};
    forall t: Table ensures LoginReset(t, {}) == t {
      NothingResetYet(s1, t);
    }
  }

  /** A user who gave a password at `authTime` keeps the authorisation through any pass up to
      exactly seven days later. */
  method AuthorisationLastsAWeek(t: Table, users: map<int, Option<int>>, key: StorageKey, password: string,
                                 authTime: int, now: int, sendOk: int -> bool, order: seq<int>)
    returns (lastAuth: Option<int>, state: Option<string>)
    requires password != [] && key.chatId == key.userId && now - authTime <= Week
    requires forall u :: u in users[key.userId := Some(authTime)] <==> u in order
    ensures lastAuth == Some(authTime) && state == None
  {
    var fsm := new SQLiteStorage(t);
    var app := new Bot(fsm, users);
    var _ := app.ProcessPassword(key, key.userId, Some(password), authTime);
    Sweep(app, key.botId, now, sendOk, order);
    lastAuth := app.userStorage[key.userId];
    state := fsm.GetState(key);
  }

  /** More than seven days later, a pass that reaches the user resets the authorisation and
      puts the private chat back in the login state. */
  method ExpiredUserLogsInAgain(t: Table, users: map<int, Option<int>>, key: StorageKey, password: string,
                                authTime: int, now: int, sendOk: int -> bool, order: seq<int>)
    returns (lastAuth: Option<int>, state: Option<string>)
    requires password != [] && key.chatId == key.userId && now - authTime > Week && sendOk(key.userId)
    requires forall u :: u in users[key.userId := Some(authTime)] <==> u in order
    ensures lastAuth == None && state == Some(LoginState)
  {
    var fsm := new SQLiteStorage(t);
    var app := new Bot(fsm, users);
    var _ := app.ProcessPassword(key, key.userId, Some(password), authTime);
    Sweep(app, key.botId, now, sendOk, order);
    lastAuth := app.userStorage[key.userId];
    state := fsm.GetState(key);
  }
}
