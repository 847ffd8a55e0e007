/** The bot's message handlers: the login dialogue driven by the FSM storage, the `/start`
    command and the re-authorisation button that start it, and the reply sent for any other
    message. Each handler returns the text it answers with. */
module Handlers {
  import opened Wrappers
  import opened Exceptions
  import opened Text
  import opened FsmStorage
  import ValueAiClient

  /** `UserStates.login.state` and `UserStates.password.state`. */
  const LoginState: string := "UserStates:login"
  const PasswordState: string := "UserStates:password"

  /** The only login domain `process_login` accepts. */
  const LoginSuffix: string := "@waveaccess.global"

  /** What `handle_user_message` cuts the model's answer at. */
  const Separator: string := "**********"

  const WelcomeText: string :=
    "Добро пожаловать в HR-чатбот!\n\nПожалуйста, введите ваш логин в формате name@waveaccess.global"
  const LoginPrompt: string := "Пожалуйста, введите ваш логин в формате name@waveaccess.global"
  const ReauthNotice: string := "Начата повторная авторизация"
  const BadLoginText: string := "Некорректный логин! Должен быть в формате name@waveaccess.global"
  const PasswordPrompt: string := "Теперь введите ваш пароль:"
  const BadPasswordText: string := "Неверный пароль! Попробуйте еще раз."
  const AuthorizedText: string := "Вы успешно авторизованы! Срок действия авторизации - 7 дней."
  const FallbackReply: string :=
    "Извините, не удалось обработать ваш запрос. Попробуйте переформулировать вопрос или обратитесь позже."

  /** The answer with everything from the first separator on cut off, then stripped. */
  function CleanReply(raw: string): string
  {
    Strip(BeforeFirst(raw, Separator))
  }

  /** What `handle_user_message` answers, given the outcome of `send_message_to_llm`: the
      cleaned answer, or the fixed apology when sending raised, when the answer is not a
      string (so `split` raises), or when nothing is left after cleaning. */
  function Reply(answer: Result<ValueAiClient.Json, Exc>): (r: string)
    ensures r != []
    ensures r == FallbackReply
            || (answer.Ok? && answer.value.JStr? && r == CleanReply(answer.value.s) && IsStripped(r) && !Contains(r, Separator))
    ensures answer.Ok? && answer.value.JStr? && CleanReply(answer.value.s) != [] ==> r == CleanReply(answer.value.s)
  {
    if answer.Ok? && answer.value.JStr? then
      var c := CleanReply(answer.value.s);
      StripIsStripped(BeforeFirst(answer.value.s, Separator));
      BeforeFirstHasNoDelimiter(answer.value.s, Separator);
      StripKeepsAbsence(BeforeFirst(answer.value.s, Separator), Separator);
      if c == [] then FallbackReply else c
    else FallbackReply
  }

  /** The cleaned reply is what precedes the first separator, trimmed: the raw answer is that
      text, then either nothing or the separator and whatever follows it. */
  lemma CleanReplySplits(raw: string)
    ensures exists head, tail :: raw == head + tail && CleanReply(raw) == Strip(head) && !Contains(head, Separator)
                                 && (tail == [] || StartsWith(tail, Separator))
  {
    var head := BeforeFirst(raw, Separator);
    BeforeFirstSpec(raw, Separator);
    BeforeFirstHasNoDelimiter(raw, Separator);
    var tail := raw[|head|..];
    assert raw == head + tail;
    if head != raw {
      assert tail[..|Separator|] == raw[|head|..|head| + |Separator|];
    }
  }

  /** An answer that is already stripped, non-empty and free of the separator is sent unchanged. */
  lemma CleanAnswerPassesThrough(s: string)
    requires s != [] && IsStripped(s) && !Contains(s, Separator)
    ensures Reply(Ok(ValueAiClient.JStr(s))) == s
  {
    BeforeFirstSpec(s, Separator);
    StrippedIsFixpoint(s);
  }

  class Bot {
    /** The dispatcher's FSM storage. */
    const fsm: SQLiteStorage
    /** `user_storage`: Telegram user id to `last_auth` (a time in microseconds), `None` once reset. */
    var userStorage: map<int, Option<int>>

    constructor (fsm: SQLiteStorage, userStorage: map<int, Option<int>>)
      ensures this.fsm == fsm && this.userStorage == userStorage
    {
      this.fsm := fsm;
      this.userStorage := userStorage;
    }

    /** `cmd_start`: greets the user and puts the conversation in the login state. */
    method CmdStart(key: StorageKey) returns (reply: string)
      modifies fsm
      ensures reply == WelcomeText
      ensures fsm.table == WithState(old(fsm.table), KeyOf(key), Some(LoginState))
    {
      reply := WelcomeText;
      fsm.SetState(key, StateObj(LoginState));
    }

    /** `reauthorisation`: puts the conversation back in the login state, confirms the button
        press and asks for the login again. */
    method Reauthorisation(key: StorageKey) returns (notice: string, reply: string)
      modifies fsm
      ensures notice == ReauthNotice && reply == LoginPrompt
      ensures fsm.table == WithState(old(fsm.table), KeyOf(key), Some(LoginState))
    {
      fsm.SetState(key, StateObj(LoginState));
      notice := ReauthNotice;
      reply := LoginPrompt;
    }

    /** `process_login`: a text ending exactly in the company domain is stored under "login"
        and the conversation moves to the password state; any other text leaves everything as
        it was. A message without text makes `endswith` raise. */
    method ProcessLogin(key: StorageKey, text: Option<string>) returns (r: Result<string, Exc>)
      modifies fsm
      ensures text.None? ==> r == Err(AttributeError) && fsm.table == old(fsm.table)
      ensures text.Some? && !EndsWith(text.value, LoginSuffix) ==> r == Ok(BadLoginText) && fsm.table == old(fsm.table)
      ensures text.Some? && EndsWith(text.value, LoginSuffix) ==>
                r == Ok(PasswordPrompt)
                && fsm.table == old(fsm.table)[KeyOf(key) :=
                     Row(Some(PasswordState), Some(DataOf(old(fsm.table), KeyOf(key))["login" := Str(text.value)]))]
    {
      if text.None? {
        return Err(AttributeError);
      }
      if !EndsWith(text.value, LoginSuffix) {
        return Ok(BadLoginText);
      }
      var merged := fsm.UpdateData(key, map["login" := Str(text.value)]);
      assert merged == DataOf(old(fsm.table), KeyOf(key))["login" := Str(text.value)];
      fsm.SetState(key, StateObj(PasswordState));
      r := Ok(PasswordPrompt);
    }

    /** `process_password`: any non-empty text is accepted; the time of this authorisation is
        recorded for the user and the conversation's state and data are cleared. */
    method ProcessPassword(key: StorageKey, userId: int, text: Option<string>, now: int) returns (reply: string)
      modifies this, fsm
      ensures text.None? || text == Some([]) ==>
                reply == BadPasswordText && fsm.table == old(fsm.table) && userStorage == old(userStorage)
      ensures text.Some? && text.value != [] ==>
                reply == AuthorizedText
                && userStorage == old(userStorage)[userId := Some(now)]
                && fsm.table == old(fsm.table)[KeyOf(key) := Row(None, Some(map[]))]
    {
      if text.None? || text.value == [] {
        return BadPasswordText;
      }
      userStorage := userStorage[userId := Some(now)];
      fsm.Clear(key);
      reply := AuthorizedText;
    }
  }

  /** The login dialogue from `/start`: a valid login and then a password end with the
      conversation cleared, the user's authorisation time recorded, and no login kept. */
  method LoginDialogue(t: Table, users: map<int, Option<int>>, key: StorageKey, login: string, password: string, now: int)
    returns (replies: seq<string>, state: Option<string>, data: Data, lastAuth: Option<int>)
    requires EndsWith(login, LoginSuffix) && password != []
    ensures replies == [WelcomeText, PasswordPrompt, AuthorizedText]
    ensures state == None && data == map[]
    ensures lastAuth == Some(now)
  {
    var fsm := new SQLiteStorage(t);
    var bot := new Bot(fsm, users);
    var r1 := bot.CmdStart(key);
    var r2 := bot.ProcessLogin(key, Some(login));
    var r3 := bot.ProcessPassword(key, key.userId, Some(password), now);
    replies := [r1, r2.value, r3];
    state := fsm.GetState(key);
    data := fsm.GetData(key);
    lastAuth := bot.userStorage[key.userId];
  }

  /** A login outside the domain keeps the conversation in the login state with its data. */
  method WrongDomainStaysInLogin(t: Table, key: StorageKey, login: string)
    returns (reply: Result<string, Exc>, state: Option<string>, data: Data)
    requires !EndsWith(login, LoginSuffix)
    ensures reply == Ok(BadLoginText)
    ensures state == Some(LoginState) && data == DataOf(t, KeyOf(key))
  {
    var fsm := new SQLiteStorage(t);
    var bot := new Bot(fsm, map[]);
    var _ := bot.CmdStart(key);
    reply := bot.ProcessLogin(key, Some(login));
    state := fsm.GetState(key);
    data := fsm.GetData(key);
  }
}
