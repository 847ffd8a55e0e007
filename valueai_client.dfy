/** `ValueAIClient`: one question to the ValueAI chat API is a POST that creates a chat,
    GETs of that chat until its answer can be read, under a retry policy, and a DELETE of
    the chat. Every HTTP exchange is an input: what the server answered. */
module ValueAiClient {
  import opened Wrappers
  import opened Exceptions

  /** `stop_after_attempt(8)`. */
  const MaxAttempts: nat := 8

  /** A decoded JSON document (numbers restricted to integers). */
  datatype Json =
    | JNull
    | JBool(b: bool)
    | JNum(n: int)
    | JStr(s: string)
    | JArr(items: seq<Json>)
    | JObj(fields: map<string, Json>)

  /** One HTTP exchange: a transport failure, or a status and a body as `response.json()` sees it. */
  datatype HttpReply = TransportError | Reply(status: int, body: JsonBody<Json>)

  /** A request the client sends; GET and DELETE name the chat through its id. */
  datatype Request =
    | Post(headers: map<string, string>)
    | Get(chat: Json, headers: map<string, string>)
    | Delete(chat: Json, headers: map<string, string>)

  /** `get_headers` once the token is known: a single bearer authorization header. */
  function GetHeaders(token: string): (h: map<string, string>)
    ensures h.Keys == {"Authorization"}
    ensures |h["Authorization"]| == |"Bearer "| + |token|
    ensures h["Authorization"][..|"Bearer "|] == "Bearer " && h["Authorization"][|"Bearer "|..] == token
  {
    map["Authorization" := "Bearer " + token]
  }

  /** Python's `v[k]` for a string key `k`. */
  function Field(v: Json, k: string): (r: Result<Json, Exc>)
    ensures r.Ok? <==> v.JObj? && k in v.fields
    ensures r.Ok? ==> r.value == v.fields[k]
    ensures r.Err? ==> r.error == (if v.JObj? then KeyError else TypeError)
  {
    if !v.JObj? then Err(TypeError)
    else if k in v.fields then Ok(v.fields[k])
    else Err(KeyError)
  }

  /** Python's `v[0]`: the first item of a list or the first character of a string; an object
      has string keys only, so `0` is never one of them. */
  function First(v: Json): (r: Result<Json, Exc>)
    ensures r.Ok? <==> (v.JArr? && |v.items| > 0) || (v.JStr? && |v.s| > 0)
    ensures r.Ok? && v.JArr? ==> r.value == v.items[0]
    ensures r.Ok? && v.JStr? ==> r.value.JStr? && |r.value.s| == 1 && r.value.s[0] == v.s[0]
    ensures r.Err? ==> r.error == (if v.JArr? || v.JStr? then IndexError else if v.JObj? then KeyError else TypeError)
  {
    match v
    case JArr(items) => if |items| > 0 then Ok(items[0]) else Err(IndexError)
    case JStr(s) => if |s| > 0 then Ok(JStr([s[0]])) else Err(IndexError)
    case JObj(_) => Err(KeyError)
    case _ => Err(TypeError)
  }

  /** The answer `data['data'][0]['text']` of a chat, a KeyError or IndexError becoming APIError;
      a TypeError, from a document of another shape, is not caught. */
  function AnswerOf(body: Json): (r: Result<Json, Exc>)
    ensures r.Ok? <==> body.JObj? && "data" in body.fields && body.fields["data"].JArr?
                       && |body.fields["data"].items| > 0 && body.fields["data"].items[0].JObj?
                       && "text" in body.fields["data"].items[0].fields
    ensures r.Ok? ==> r.value == body.fields["data"].items[0].fields["text"]
    ensures r.Err? ==> r.error == ApiError || r.error == TypeError
    ensures !body.JObj? ==> r == Err(TypeError)
    ensures body.JObj? && "data" !in body.fields ==> r == Err(ApiError)
    ensures body.JObj? && "data" in body.fields ==>
              var d := body.fields["data"];
              (d.JNull? || d.JBool? || d.JNum? ==> r == Err(TypeError))
              && (d.JObj? ==> r == Err(ApiError))
              && (d.JArr? && |d.items| == 0 ==> r == Err(ApiError))
              && (d.JStr? && |d.s| == 0 ==> r == Err(ApiError))
              && (d.JStr? && |d.s| > 0 ==> r == Err(TypeError))
              && (d.JArr? && |d.items| > 0 && !d.items[0].JObj? ==> r == Err(TypeError))
              && (d.JArr? && |d.items| > 0 && d.items[0].JObj? && "text" !in d.items[0].fields ==> r == Err(ApiError))
  {
    var x := Field(body, "data");
    var y := if x.Ok? then First(x.value) else x;
    var z := if y.Ok? then Field(y.value, "text") else y;
    if z.Err? && (z.error == KeyError || z.error == IndexError) then Err(ApiError) else z
  }

  /** One attempt of `get_chat_response`: a status other than 200 is an APIError, then the body
      is decoded and its answer read. */
  function PollOnce(reply: HttpReply): (r: Result<Json, Exc>)
    ensures r.Ok? <==> reply.Reply? && reply.status == 200 && reply.body.Decoded? && AnswerOf(reply.body.doc).Ok?
    ensures r.Ok? ==> r == AnswerOf(reply.body.doc)
    ensures reply.TransportError? ==> r == Err(ClientError)
    ensures reply.Reply? && reply.status != 200 ==> r == Err(ApiError)
    ensures reply == Reply(200, WrongContentType) ==> r == Err(ClientError)
    ensures reply == Reply(200, Malformed) ==> r == Err(ValueError)
    ensures reply.Reply? && reply.status == 200 && reply.body.Decoded? ==> r == AnswerOf(reply.body.doc)
    ensures r.Err? && !Retryable(r.error) ==>
              reply.Reply? && reply.status == 200
              && ((reply.body.Malformed? && r.error == ValueError) || (reply.body.Decoded? && r.error == TypeError))
  {
    match reply
    case TransportError => Err(ClientError)
    case Reply(status, body) =>
      if status != 200 then Err(ApiError)
      else
        var doc: Result<Json, Exc> := ReadJson(body);
        if doc.Err? then Err(doc.error) else AnswerOf(doc.value)
  }

  /** An attempt that fails with an exception the policy retries on. */
  predicate Transient(reply: HttpReply)
  {
    var r := PollOnce(reply);
    r.Err? && Retryable(r.error)
  }

  /** The retry policy from attempt `i` on (attempts counted from 0): the outcome and how many
      attempts were made in all. A result or a non-retryable exception ends it at once; after
      the eighth retryable failure, tenacity gives up with a RetryError. */
  function RetryFrom(respond: nat -> HttpReply, i: nat): (p: (Result<Json, Exc>, nat))
    requires i < MaxAttempts
    ensures i < p.1 <= MaxAttempts
    decreases MaxAttempts - i
  {
    if !Transient(respond(i)) then (PollOnce(respond(i)), i + 1)
    else if i + 1 == MaxAttempts then (Err(RetryError), MaxAttempts)
    else RetryFrom(respond, i + 1)
  }

  /** From attempt `i`, the policy stops at the first attempt that is not transient, or gives up
      at the eighth. */
  lemma {:induction false} RetryFromOutcome(respond: nat -> HttpReply, i: nat)
    requires i < MaxAttempts
    ensures var p := RetryFrom(respond, i);
            (forall j :: i <= j < p.1 - 1 ==> Transient(respond(j)))
            && (p.1 < MaxAttempts ==> !Transient(respond(p.1 - 1)) && p.0 == PollOnce(respond(p.1 - 1)))
            && (p.1 == MaxAttempts ==>
                  p.0 == if Transient(respond(MaxAttempts - 1)) then Err(RetryError) else PollOnce(respond(MaxAttempts - 1)))
    decreases MaxAttempts - i
  {
    if Transient(respond(i)) && i + 1 < MaxAttempts {
      RetryFromOutcome(respond, i + 1);
    }
  }

  /** The whole policy: every attempt before the last was transient; the last one's outcome is
      the answer unless it was the eighth transient failure. */
  lemma RetryOutcome(respond: nat -> HttpReply)
    ensures var p := RetryFrom(respond, 0);
            1 <= p.1 <= MaxAttempts
            && (forall j :: 0 <= j < p.1 - 1 ==> Transient(respond(j)))
            && (Transient(respond(p.1 - 1)) <==> p.0 == Err(RetryError))
            && (!Transient(respond(p.1 - 1)) ==> p.0 == PollOnce(respond(p.1 - 1)))
  {
    RetryFromOutcome(respond, 0);
  }

  /** `k` transient failures followed by a settled attempt, within the limit: the client makes
      exactly `k + 1` attempts and returns that attempt's outcome. */
  lemma FirstSettledAttempt(respond: nat -> HttpReply, k: nat)
    requires k < MaxAttempts
    requires forall j :: 0 <= j < k ==> Transient(respond(j))
    requires !Transient(respond(k))
    ensures RetryFrom(respond, 0) == (PollOnce(respond(k)), k + 1)
  {
    RetryFromOutcome(respond, 0);
  }

  /** Eight transient failures: exactly eight attempts, then a RetryError. */
  lemma AllTransientGivesUp(respond: nat -> HttpReply)
    requires forall j :: 0 <= j < MaxAttempts ==> Transient(respond(j))
    ensures RetryFrom(respond, 0) == (Err(RetryError), MaxAttempts)
  {
    RetryFromOutcome(respond, 0);
  }

  /** `get_chat_response` under `@retry`: `respond(i)` is the server's answer to the `i`-th GET. */
  method GetChatResponse(respond: nat -> HttpReply) returns (r: Result<Json, Exc>, attempts: nat)
    ensures (r, attempts) == RetryFrom(respond, 0)
  {
    var i: nat := 0;
    while true
      invariant i < MaxAttempts
      invariant RetryFrom(respond, i) == RetryFrom(respond, 0)
      decreases MaxAttempts - i
    {
      var outcome := PollOnce(respond(i));
      if !(outcome.Err? && Retryable(outcome.error)) {
        return outcome, i + 1;
      }
      if i + 1 == MaxAttempts {
        return Err(RetryError), MaxAttempts;
      }
      i := i + 1;
    }
  }

  /** The chat id `data['id']` of the creating POST; a status other than 200 is an APIError. */
  function ChatIdOf(create: HttpReply): (r: Result<Json, Exc>)
    ensures r.Ok? <==> create.Reply? && create.status == 200 && create.body.Decoded?
                       && create.body.doc.JObj? && "id" in create.body.doc.fields
    ensures r.Ok? ==> r.value == create.body.doc.fields["id"]
    ensures create.Reply? && create.status != 200 ==> r == Err(ApiError)
    ensures create.Reply? && create.status == 200 && create.body.Decoded? && !create.body.doc.JObj? ==> r == Err(TypeError)
    ensures create == Reply(200, Malformed) ==> r == Err(ValueError)
    ensures create.TransportError? || create == Reply(200, WrongContentType) ==> r == Err(ClientError)
    ensures create.Reply? && create.status == 200 && create.body.Decoded? ==>
              (create.body.doc.JObj? && "id" !in create.body.doc.fields ==> r == Err(KeyError))
  {
    match create
    case TransportError => Err(ClientError)
    case Reply(status, body) =>
      if status != 200 then Err(ApiError)
      else
        var doc: Result<Json, Exc> := ReadJson(body);
        if doc.Err? then Err(doc.error) else Field(doc.value, "id")
  }

  /** `n` GETs of one chat. */
  function Gets(chat: Json, headers: map<string, string>, n: nat): (s: seq<Request>)
    ensures |s| == n && forall q :: q in s ==> q == Get(chat, headers)
  {
    seq(n, _ => Get(chat, headers))
  }

  /** `send_message_to_llm`, given what `get_valid_token` produced and what the server answers
      to the POST, to each GET and to the DELETE. Returns the answer and the requests sent. */
  method SendMessageToLlm(token: Result<string, Exc>, create: HttpReply, respond: nat -> HttpReply, delete: HttpReply)
    returns (r: Result<Json, Exc>, trace: seq<Request>)
    ensures token.Err? ==> r == Err(token.error) && trace == []
    ensures token.Ok? ==> forall q :: q in trace ==> q.headers == GetHeaders(token.value)
    ensures token.Ok? && ChatIdOf(create).Err? ==>
              r == Err(ChatIdOf(create).error) && trace == [Post(GetHeaders(token.value))]
    ensures token.Ok? && ChatIdOf(create).Ok? ==>
              var h := GetHeaders(token.value);
              var chat := ChatIdOf(create).value;
              var (answer, attempts) := RetryFrom(respond, 0);
              trace == [Post(h)] + Gets(chat, h, attempts) + (if answer.Ok? then [Delete(chat, h)] else [])
              && (answer.Err? ==> r == answer)
              && (answer.Ok? && delete.TransportError? ==> r == Err(ClientError))
              && (answer.Ok? && delete.Reply? ==> r == answer)
  {
    if token.Err? {
      return Err(token.error), [];
    }
    var headers := GetHeaders(token.value);
    trace := [Post(headers)];
    var chat := ChatIdOf(create);
    if chat.Err? {
      return Err(chat.error), trace;
    }
    var answer, attempts := GetChatResponse(respond);
    trace := trace + Gets(chat.value, headers, attempts);
    if answer.Err? {
      return answer, trace;
    }
    trace := trace + [Delete(chat.value, headers)];
    if delete.TransportError? {
      return Err(ClientError), trace;
    }
    r := answer;
  }

  /** The answer a question gets, whatever the DELETE's status: the answer of the first settled
      poll, and the chat is deleted exactly once, after the last GET. */
  method AnsweredDespiteFailedDelete(token: string, id: Json, respond: nat -> HttpReply, k: nat, status: int)
    returns (r: Result<Json, Exc>, trace: seq<Request>)
    requires k < MaxAttempts
    requires forall j :: 0 <= j < k ==> Transient(respond(j))
    requires PollOnce(respond(k)).Ok?
    ensures r == PollOnce(respond(k))
    ensures |trace| == k + 3 && trace[k + 2] == Delete(id, GetHeaders(token))
    ensures forall j :: 1 <= j <= k + 1 ==> trace[j] == Get(id, GetHeaders(token))
  {
    FirstSettledAttempt(respond, k);
    r, trace := SendMessageToLlm(Ok(token), Reply(200, Decoded(JObj(map["id" := id]))), respond, Reply(status, Malformed));
  }
}
