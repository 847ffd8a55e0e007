/** The free functions over a connection pool: the `authorization` table (login to password
    hash), the `session` table keyed by the device's Telegram id, and the `statistics`
    table counting how often each exact question text was asked. */
module SessionDatabase {

  datatype Session = Session(login: string, regDate: int)

  class Pool {
    var authorization: map<string, string>
    var session: map<int, Session>
    var statistics: map<string, nat>

    constructor (authorization: map<string, string>, session: map<int, Session>, statistics: map<string, nat>)
      ensures this.authorization == authorization && this.session == session && this.statistics == statistics
    {
      this.authorization := authorization;
      this.session := session;
      this.statistics := statistics;
    }

    /** `user_exists`: whether the `authorization` table has a row for that login. */
    method UserExists(login: string) returns (r: bool)
      ensures r <==> login in authorization
    {
      r := login in authorization;
    }

    /** `is_authenticated`: False without a row; otherwise the verdict of `bcrypt.checkpw`,
        which stays an uninterpreted predicate `checkpw(password, storedHash)`. */
    method IsAuthenticated(login: string, password: string, checkpw: (string, string) -> bool) returns (r: bool)
      ensures login !in authorization ==> !r
      ensures login in authorization ==> r == checkpw(password, authorization[login])
    {
      if login !in authorization {
        return false;
      }
      r := checkpw(password, authorization[login]);
    }

    /** `save_session`: first writer wins on the device id (ON CONFLICT DO NOTHING);
        `now` stands for the database's NOW(). */
    method SaveSession(tgId: int, login: string, now: int)
      modifies this
      ensures tgId in old(session) ==> session == old(session)
      ensures tgId !in old(session) ==> session == old(session)[tgId := Session(login, now)]
      ensures authorization == old(authorization) && statistics == old(statistics)
    {
      if tgId !in session {
        session := session[tgId := Session(login, now)];
      }
    }

    /** `save_question_stat`: a new question starts at frequency 1, a known one goes up by exactly 1. */
    method SaveQuestionStat(question: string)
      modifies this
      ensures question !in old(statistics) ==> statistics == old(statistics)[question := 1]
      ensures question in old(statistics) ==> statistics == old(statistics)[question := old(statistics)[question] + 1]
      ensures authorization == old(authorization) && session == old(session)
    {
      if question in statistics {
        statistics := statistics[question := statistics[question] + 1];
      } else {
        statistics := statistics[question := 1];
      }
    }
  }

  /** Asking a question twice adds exactly 2 to its frequency and leaves every other counter alone. */
  method AskTwice(statistics: map<string, nat>, question: string) returns (after: map<string, nat>)
    ensures after.Keys == statistics.Keys + {question}
    ensures after[question] == (if question in statistics then statistics[question] else 0) + 2
    ensures forall q :: q in statistics && q != question ==> after[q] == statistics[q]
  {
    var pool := new Pool(map[], map[], statistics);
    pool.SaveQuestionStat(question);
    pool.SaveQuestionStat(question);
    after := pool.statistics;
  }

  /** A second `save_session` for the same device, under any login and at any time, keeps the first. */
  method SaveSessionTwice(session: map<int, Session>, tgId: int, first: string, second: string, t1: int, t2: int)
    returns (kept: Session)
    ensures tgId in session ==> kept == session[tgId]
    ensures tgId !in session ==> kept == Session(first, t1)
  {
    var pool := new Pool(map[], session, map[]);
    pool.SaveSession(tgId, first, t1);
    pool.SaveSession(tgId, second, t2);
    kept := pool.session[tgId];
  }
}
