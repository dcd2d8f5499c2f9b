/**
 * The chat server's request policy: a sliding-window rate limit per
 * client address, validation of the conversation a request carries, its
 * sanitisation, a cascade over language-model providers in which the
 * first non-empty reply wins, and the loader that reads `KEY=VALUE` lines
 * of a secrets file into the environment without overriding anything.
 *
 * Clock readings, provider outcomes and the file's text are parameters;
 * Python's `str()` of a list or dict (its `repr`) is a parameter too.
 */
module ChatServer {
  import opened Common
  import opened Text
  import opened Json

  const RateLimitPerMin: nat := 10
  const RateLimitPerHour: nat := 50
  const MaxSessionMsgs: nat := 30
  const MaxInputLen: nat := 500

  /** An `HTTPException`: the status code and the `detail` sent back. */
  datatype Rejection = Rejection(status: int, detail: string)

  const MinuteLimited := Rejection(429, "Rate limit: too many messages per minute. Please slow down.")
  const HourLimited := Rejection(429, "Rate limit: hourly limit reached. Please try again later.")
  const Unavailable := Rejection(503, "Chat service temporarily unavailable. Please try again later.")
  /** An exception the handler does not catch becomes a bare 500. */
  const InternalError := Rejection(500, "Internal Server Error")

  // ---------------------------------------------------------------- rate limit

  /** The timestamps less than an hour old, in their original order. */
  function Prune(ts: seq<real>, now: real): (r: seq<real>)
    ensures |r| <= |ts|
    ensures forall k :: 0 <= k < |r| ==> now - r[k] < 3600.0
    ensures forall t :: t in r ==> t in ts
    ensures forall t :: t in ts && now - t < 3600.0 ==> t in r
    ensures |r| == CountRecent(ts, now, 3600.0)
  {
    if ts == [] then []
    else (if now - ts[0] < 3600.0 then [ts[0]] else []) + Prune(ts[1..], now)
  }

  /** How many timestamps fall less than `window` seconds before `now`. */
  function CountRecent(ts: seq<real>, now: real, window: real): (n: nat)
    ensures n <= |ts|
  {
    if ts == [] then 0
    else (if now - ts[0] < window then 1 else 0) + CountRecent(ts[1..], now, window)
  }

  /** `rate_buckets[ip]` on a `defaultdict(list)`. */
  function Bucket(buckets: map<string, seq<real>>, ip: string): seq<real> {
    if ip in buckets then buckets[ip] else []
  }

  /** `request.client.host`, or `"unknown"` when the request carries no client. */
  function ClientAddress(client: Option<string>): string {
    if client.Some? then client.value else "unknown"
  }

  /** The rate limiter's verdict on a request from `client` at `now`. */
  function Limited(buckets: map<string, seq<real>>, client: Option<string>, now: real): Option<Rejection> {
    RateVerdict(Prune(Bucket(buckets, ClientAddress(client)), now), now)
  }

  /** The verdict on one more request from a client whose pruned history is `kept`. */
  function RateVerdict(kept: seq<real>, now: real): (r: Option<Rejection>)
    ensures r.None? <==> CountRecent(kept, now, 60.0) < RateLimitPerMin && |kept| < RateLimitPerHour
    ensures r == Some(HourLimited) ==> CountRecent(kept, now, 60.0) < RateLimitPerMin
  {
    if CountRecent(kept, now, 60.0) >= RateLimitPerMin then Some(MinuteLimited)
    else if |kept| >= RateLimitPerHour then Some(HourLimited)
    else None
  }

  class RateLimiter {
    var buckets: map<string, seq<real>>

    constructor ()
      ensures buckets == map[]
    {
      buckets := map[];
    }

    /**
     * Prune the client's timestamps, then refuse when ten fall in the last minute (checked first)
     * or fifty in the last hour; otherwise record `now`. The pruned list is kept either way.
     */
    method CheckRateLimit(ip: string, now: real) returns (rejection: Option<Rejection>)
      modifies this
      ensures var kept := Prune(Bucket(old(buckets), ip), now);
              rejection == RateVerdict(kept, now)
              && buckets == old(buckets)[ip := if rejection.None? then kept + [now] else kept]
    {
      var kept := Prune(Bucket(buckets, ip), now);
      buckets := buckets[ip := kept];
      var recentMin := CountRecent(kept, now, 60.0);
      var recentHour := |kept|;
      if recentMin >= RateLimitPerMin {
        return Some(MinuteLimited);
      }
      if recentHour >= RateLimitPerHour {
        return Some(HourLimited);
      }
      buckets := buckets[ip := kept + [now]];
      rejection := None;
    }

    /** The whole `/api/chat` handler: rate limit, validation, sanitisation, then the provider cascade. */
    method Chat(client: Option<string>, messages: seq<Message>, now: real, repr: Value -> string,
                attempt: seq<Turn> -> string -> Attempt)
      returns (response: Result<ChatResponse, Rejection>)
      modifies this
      ensures Limited(old(buckets), client, now).Some? ==> response == Failure(Limited(old(buckets), client, now).value)
      ensures Limited(old(buckets), client, now).None? && Validate(messages).Some? ==>
                response == Failure(Validate(messages).value)
      ensures Limited(old(buckets), client, now).None? && Validate(messages).None? ==>
                response == Reply(Sanitized(messages, repr), attempt)
      ensures response.Success? ==> 0 <= response.value.remaining < MaxSessionMsgs
      ensures var kept := Prune(Bucket(old(buckets), ClientAddress(client)), now);
              buckets == old(buckets)[ClientAddress(client) := if Limited(old(buckets), client, now).None? then kept + [now] else kept]
    {
      var ip := ClientAddress(client);
      var limited := CheckRateLimit(ip, now);
      if limited.Some? {
        return Failure(limited.value);
      }
      response := Converse(messages, repr, attempt);
    }
  }

  /** The handler after the rate limit: validation, sanitisation, then the provider cascade. */
  method Converse(messages: seq<Message>, repr: Value -> string, attempt: seq<Turn> -> string -> Attempt)
    returns (response: Result<ChatResponse, Rejection>)
    ensures Validate(messages).Some? ==> response == Failure(Validate(messages).value)
    ensures Validate(messages).None? ==> response == Reply(Sanitized(messages, repr), attempt)
    ensures response.Success? ==> 0 <= response.value.remaining < MaxSessionMsgs
  {
    var invalid := Validate(messages);
    if invalid.Some? {
      return Failure(invalid.value);
    }
    var clean := Sanitize(messages, repr);
    ValidatedKeepsLast(messages, repr);
    var answer, _, _ := GetResponse(attempt(clean));
    if answer.Failure? {
      return Failure(answer.error);
    }
    response := Success(ChatResponse(answer.value.reply, MaxSessionMsgs - |clean|, answer.value.provider));
  }

  // ---------------------------------------------------------------- provider cascade

  const ProviderChain: seq<string> := ["claude-max", "groq", "deepseek", "mistral", "anthropic", "ollama"]

  /** What calling one provider did: returned a reply (`None` for Python's `None`) or raised. */
  datatype Attempt = Returned(reply: Option<string>) | Raised(message: string)

  /** `if reply:` — a reply counts only when it is a non-empty string. */
  predicate Answered(a: Attempt) {
    a.Returned? && a.reply.Some? && a.reply.value != []
  }

  /** The position of the first provider that answers, or `|chain|` when none does. */
  function FirstAnswered(chain: seq<string>, attempt: string -> Attempt): (i: nat)
    ensures i <= |chain|
    ensures forall j :: 0 <= j < i ==> !Answered(attempt(chain[j]))
    ensures i < |chain| ==> Answered(attempt(chain[i]))
  {
    if chain == [] then 0
    else if Answered(attempt(chain[0])) then 0
    else 1 + FirstAnswered(chain[1..], attempt)
  }

  /** The `"name: message"` entries logged for the providers in `called` that raised. */
  function ErrorLog(called: seq<string>, attempt: string -> Attempt): seq<string> {
    if called == [] then []
    else
      var a := attempt(called[0]);
      (if a.Raised? then [called[0] + ": " + a.message] else []) + ErrorLog(called[1..], attempt)
  }

  datatype Answer = Answer(reply: string, provider: string)

  datatype ChatResponse = ChatResponse(reply: string, remaining: int, provider: string)

  /** The cascade's outcome: the reply and name of the first provider in chain order that answers, or 503. */
  function Cascade(attempt: string -> Attempt): (r: Result<Answer, Rejection>)
    ensures r.Success? <==> exists j :: 0 <= j < |ProviderChain| && Answered(attempt(ProviderChain[j]))
    ensures r.Failure? ==> r.error == Unavailable
    ensures r.Success? ==> r.value.provider in ProviderChain && r.value.reply != []
                           && attempt(r.value.provider) == Returned(Some(r.value.reply))
  {
    var i := FirstAnswered(ProviderChain, attempt);
    if i < |ProviderChain| then Success(Answer(attempt(ProviderChain[i]).reply.value, ProviderChain[i]))
    else Failure(Unavailable)
  }

  /** The handler's answer to the sanitised conversation `clean`: the cascade's reply with the turns left. */
  function Reply(clean: seq<Turn>, attempt: seq<Turn> -> string -> Attempt): (r: Result<ChatResponse, Rejection>)
    ensures r.Success? <==> exists j :: 0 <= j < |ProviderChain| && Answered(attempt(clean)(ProviderChain[j]))
    ensures r.Failure? ==> r.error == Unavailable
    ensures r.Success? ==> r.value.remaining + |clean| == MaxSessionMsgs && r.value.reply != []
                           && attempt(clean)(r.value.provider) == Returned(Some(r.value.reply))
  {
    match Cascade(attempt(clean))
    case Success(a) => Success(ChatResponse(a.reply, MaxSessionMsgs - |clean|, a.provider))
    case Failure(e) => Failure(e)
  }

  /**
   * Call the providers in chain order until one answers. Returns its reply and name, the providers
   * actually called (none after the one that answered) and the error log; 503 when none answers.
   */
  method GetResponse(attempt: string -> Attempt) returns (result: Result<Answer, Rejection>, called: seq<string>, errors: seq<string>)
    ensures result == Cascade(attempt)
    ensures var i := FirstAnswered(ProviderChain, attempt);
            (i < |ProviderChain| ==> called == ProviderChain[..i + 1]) && (i == |ProviderChain| ==> called == ProviderChain)
    ensures errors == ErrorLog(called, attempt)
  {
    var chain := ProviderChain;
    errors := [];
    called := [];
    var i := 0;
    while i < |chain|
      invariant 0 <= i <= |chain|
      invariant called == chain[..i]
      invariant forall j :: 0 <= j < i ==> !Answered(attempt(chain[j]))
      invariant errors == ErrorLog(called, attempt)
    {
      var name := chain[i];
      ErrorLogAppend(called, name, attempt);
      called := called + [name];
      assert called == chain[..i + 1];
      match attempt(name) {
        case Returned(reply) =>
          if reply.Some? && reply.value != [] {
            FirstAnsweredAt(chain, attempt, i);
            return Success(Answer(reply.value, name)), called, errors;
          }
        case Raised(e) =>
          errors := errors + [name + ": " + e];
      }
      i := i + 1;
    }
    FirstAnsweredAt(chain, attempt, i);
    result := Failure(Unavailable);
  }

  lemma {:induction false} ErrorLogAppend(called: seq<string>, name: string, attempt: string -> Attempt)
    ensures ErrorLog(called + [name], attempt)
            == ErrorLog(called, attempt) + (if attempt(name).Raised? then [name + ": " + attempt(name).message] else [])
  {
    if called != [] {
      assert (called + [name])[1..] == called[1..] + [name];
      ErrorLogAppend(called[1..], name, attempt);
    }
  }

  /** The first answering position is the one a scan from the front stops at. */
  lemma {:induction false} FirstAnsweredAt(chain: seq<string>, attempt: string -> Attempt, i: nat)
    requires i <= |chain|
    requires forall j :: 0 <= j < i ==> !Answered(attempt(chain[j]))
    requires i < |chain| ==> Answered(attempt(chain[i]))
    ensures FirstAnswered(chain, attempt) == i
  {
    if chain != [] && i > 0 {
      FirstAnsweredAt(chain[1..], attempt, i - 1);
    }
  }

  // ---------------------------------------------------------------- validation

  /** One message of the request body: a JSON object. */
  type Message = map<string, Value>

  /** `d.get(key, default)`. */
  function Get(m: Message, key: string, default: Value): Value {
    if key in m then m[key] else default
  }

  /** Python's `len(v)`, or `None` where it raises a TypeError. */
  function PyLen(v: Value): Option<nat> {
    match v
    case Str(s) => Some(|s|)
    case Arr(items) => Some(|items|)
    case Obj(props) => Some(|props|)
    case _ => None
  }

  const NoMessages := Rejection(400, "No messages provided")
  const SessionLimit := Rejection(400, "Session limit: max 30 messages per conversation.")
  const NotFromUser := Rejection(400, "Last message must be from user")
  const InputTooLong := Rejection(400, "Message too long: max 500 characters")
  const BlankMessage := Rejection(400, "Empty message")

  /**
   * A conversation the handler accepts: one to thirty messages, the last from the user, with string
   * content of at most 500 characters that is not all white space.
   */
  predicate WellFormed(messages: seq<Message>) {
    1 <= |messages| <= MaxSessionMsgs
    && var last := messages[|messages| - 1];
       var content := Get(last, "content", Str(""));
       Get(last, "role", Null) == Str("user") && content.Str? && |content.s| <= MaxInputLen && PyStrip(content.s) != []
  }

  /**
   * The handler's checks after the rate limit, in order: an empty list, more than thirty messages,
   * a last message not from the user, last content over 500 characters, blank last content.
   * Content that is not a string fails with a 500 where `len` or `strip` raises.
   */
  function Validate(messages: seq<Message>): (r: Option<Rejection>)
    ensures r.None? <==> WellFormed(messages)
  {
    if |messages| == 0 then Some(NoMessages)
    else if |messages| > MaxSessionMsgs then Some(SessionLimit)
    else
      var last := messages[|messages| - 1];
      if Get(last, "role", Null) != Str("user") then Some(NotFromUser)
      else
        var content := Get(last, "content", Str(""));
        match PyLen(content)
        case None => Some(InternalError)
        case Some(n) =>
          if n > MaxInputLen then Some(InputTooLong)
          else if !content.Str? then Some(InternalError)
          else if PyStrip(content.s) == [] then Some(BlankMessage)
          else None
  }

  /** Each check, in order, answers with its own rejection once the checks before it have passed. */
  lemma ValidateRejections(messages: seq<Message>)
    ensures |messages| == 0 ==> Validate(messages) == Some(NoMessages)
    ensures |messages| > MaxSessionMsgs ==> Validate(messages) == Some(SessionLimit)
    ensures 1 <= |messages| <= MaxSessionMsgs ==>
              var last := messages[|messages| - 1];
              var content := Get(last, "content", Str(""));
              (Get(last, "role", Null) != Str("user") ==> Validate(messages) == Some(NotFromUser))
              && (Get(last, "role", Null) == Str("user") && PyLen(content).None? ==> Validate(messages) == Some(InternalError))
              && (Get(last, "role", Null) == Str("user") && PyLen(content).Some? && PyLen(content).value > MaxInputLen ==>
                    Validate(messages) == Some(InputTooLong))
              && (Get(last, "role", Null) == Str("user") && content.Str? && |content.s| <= MaxInputLen && PyStrip(content.s) == [] ==>
                    Validate(messages) == Some(BlankMessage))
  {
  }

  // ---------------------------------------------------------------- sanitisation

  datatype Turn = Turn(role: string, content: string)

  /** Python's `str(v)`; lists and dicts go through `repr`. */
  function PyStr(v: Value, repr: Value -> string): string {
    match v
    case Str(s) => s
    case Num(n) => IntToString(n)
    case Bool(b) => if b then "True" else "False"
    case Null => "None"
    case Undefined => "None"
    case Arr(_) => repr(v)
    case Obj(_) => repr(v)
  }

  predicate KeptRole(role: Value) {
    role == Str("user") || role == Str("assistant")
  }

  /** The turn a kept message becomes: its role, and its content as a string cut to 500 characters. */
  function CleanTurn(m: Message, repr: Value -> string): (t: Turn)
    requires KeptRole(Get(m, "role", Str("")))
    ensures t.role == "user" || t.role == "assistant"
    ensures |t.content| <= MaxInputLen && t.content <= PyStr(Get(m, "content", Str("")), repr)
    ensures |PyStr(Get(m, "content", Str("")), repr)| <= MaxInputLen ==> t.content == PyStr(Get(m, "content", Str("")), repr)
  {
    var content := PyStr(Get(m, "content", Str("")), repr);
    Turn(Get(m, "role", Str("")).s, content[..Min(MaxInputLen, |content|)])
  }

  /** The user and assistant messages, in order, each made a clean turn. */
  function Sanitized(messages: seq<Message>, repr: Value -> string): (r: seq<Turn>)
    ensures |r| <= |messages|
    ensures forall k :: 0 <= k < |r| ==> (r[k].role == "user" || r[k].role == "assistant") && |r[k].content| <= MaxInputLen
  {
    if messages == [] then []
    else
      (if KeptRole(Get(messages[0], "role", Str(""))) then [CleanTurn(messages[0], repr)] else [])
      + Sanitized(messages[1..], repr)
  }

  /** Sanitising works message by message: a joined conversation sanitises to the two parts' turns joined. */
  lemma {:induction false} SanitizedAppend(a: seq<Message>, b: seq<Message>, repr: Value -> string)
    ensures Sanitized(a + b, repr) == Sanitized(a, repr) + Sanitized(b, repr)
  {
    if a == [] {
      assert a + b == b;
    } else {
      assert (a + b)[1..] == a[1..] + b;
      SanitizedAppend(a[1..], b, repr);
    }
  }

  /**
   * One message: a user or assistant message becomes its role and `str(content)` cut to 500
   * characters (missing content reads as the empty string); any other role is dropped.
   */
  lemma SanitizedOne(m: Message, repr: Value -> string)
    ensures var role := Get(m, "role", Str(""));
            var content := PyStr(Get(m, "content", Str("")), repr);
            Sanitized([m], repr)
            == if role == Str("user") || role == Str("assistant")
               then [Turn(role.s, content[..Min(MaxInputLen, |content|)])] else []
  {
    assert [m][1..] == [];
  }

  method Sanitize(messages: seq<Message>, repr: Value -> string) returns (clean: seq<Turn>)
    ensures clean == Sanitized(messages, repr)
  {
    clean := [];
    var i := 0;
    while i < |messages|
      invariant 0 <= i <= |messages|
      invariant clean + Sanitized(messages[i..], repr) == Sanitized(messages, repr)
    {
      assert messages[i..][1..] == messages[i + 1..];
      var m := messages[i];
      if KeptRole(Get(m, "role", Str(""))) {
        clean := clean + [CleanTurn(m, repr)];
      }
      i := i + 1;
    }
    assert messages[i..] == [];
  }

  /** A turn sent back as a message. */
  function AsMessage(t: Turn): Message {
    map["role" := Str(t.role), "content" := Str(t.content)]
  }

  /** Sanitising is idempotent: a clean conversation, sent again, comes back unchanged. */
  lemma {:induction false} SanitizeIdempotent(messages: seq<Message>, repr: Value -> string)
    ensures var clean := Sanitized(messages, repr);
            Sanitized(seq(|clean|, k requires 0 <= k < |clean| => AsMessage(clean[k])), repr) == clean
  {
    var clean := Sanitized(messages, repr);
    ResendClean(clean, repr);
  }

  lemma {:induction false} ResendClean(clean: seq<Turn>, repr: Value -> string)
    requires forall k :: 0 <= k < |clean| ==> (clean[k].role == "user" || clean[k].role == "assistant") && |clean[k].content| <= MaxInputLen
    ensures Sanitized(seq(|clean|, k requires 0 <= k < |clean| => AsMessage(clean[k])), repr) == clean
  {
    var ms := seq(|clean|, k requires 0 <= k < |clean| => AsMessage(clean[k]));
    if clean != [] {
      var t := clean[0];
      assert Get(ms[0], "role", Str("")) == Str(t.role);
      assert Get(ms[0], "content", Str("")) == Str(t.content);
      assert t.content[..Min(MaxInputLen, |t.content|)] == t.content;
      assert CleanTurn(ms[0], repr) == t;
      var rest := clean[1..];
      assert ms[1..] == seq(|rest|, k requires 0 <= k < |rest| => AsMessage(rest[k]));
      ResendClean(rest, repr);
    }
  }

  /** A validated conversation keeps its last (user) message, so at most 29 more can follow. */
  lemma ValidatedKeepsLast(messages: seq<Message>, repr: Value -> string)
    requires Validate(messages).None?
    ensures 1 <= |Sanitized(messages, repr)| <= MaxSessionMsgs
  {
    SanitizedKeepsLast(messages, repr);
  }

  lemma {:induction false} SanitizedKeepsLast(messages: seq<Message>, repr: Value -> string)
    requires messages != [] && KeptRole(Get(messages[|messages| - 1], "role", Str("")))
    ensures |Sanitized(messages, repr)| >= 1
  {
    if |messages| > 1 {
      assert messages[1..][|messages[1..]| - 1] == messages[|messages| - 1];
      SanitizedKeepsLast(messages[1..], repr);
    }
  }

  // ---------------------------------------------------------------- secrets loader

  /** A setting of the secrets file: the variable's name and its value. */
  datatype Entry = Entry(key: string, val: string)

  /**
   * The entry a line of the secrets file sets, if any: only a stripped line that is not blank, is
   * not a `#` comment and holds an `=` can set something.
   */
  function ParseSecretLine(raw: string): (r: Option<Entry>)
    ensures r.Some? ==> var line := PyStrip(raw); line != [] && line[0] != '#' && '=' in line
    ensures r.Some? ==> r.value.key != [] && r.value.val != []
    ensures r.Some? ==> !IsPySpace(r.value.key[0]) && !IsPySpace(r.value.key[|r.value.key| - 1])
    ensures r.Some? ==> !IsQuote(r.value.val[0]) && !IsQuote(r.value.val[|r.value.val| - 1])
  {
    var line := PyStrip(raw);
    if line != [] && line[0] != '#' && '=' in line then Assignment(line) else None
  }

  /** `key, _, val = line.partition("=")`, both sides cleaned; `None` when either comes out empty. */
  function Assignment(line: string): (r: Option<Entry>)
    ensures r.Some? ==> r.value.key != [] && r.value.val != []
    ensures r.Some? ==> !IsPySpace(r.value.key[0]) && !IsPySpace(r.value.key[|r.value.key| - 1])
    ensures r.Some? ==> !IsQuote(r.value.val[0]) && !IsQuote(r.value.val[|r.value.val| - 1])
  {
    var key := SecretKey(line);
    var val := SecretValue(line);
    if key != [] && val != [] then Some(Entry(key, val)) else None
  }

  /** `key.strip()`: the text before the first `=`, without surrounding white space. */
  function SecretKey(line: string): (r: string)
    ensures r != [] ==> !IsPySpace(r[0]) && !IsPySpace(r[|r| - 1])
  {
    PyStrip(line[..IndexOf(line, '=')])
  }

  /** `val.strip().strip("'\"")`: the text after the first `=`, without white space or quotes around it. */
  function SecretValue(line: string): (r: string)
    ensures r != [] ==> !IsQuote(r[0]) && !IsQuote(r[|r| - 1])
  {
    Strip(PyStrip(line[Min(IndexOf(line, '=') + 1, |line|)..]), IsQuote)
  }

  /**
   * The line is cut at its first `=`: the key is the stripped text before it, and the value is the
   * text after it stripped of white space, then of quotes.
   */
  lemma SecretSplit(k: string, v: string)
    requires '=' !in k
    ensures SecretKey(k + "=" + v) == PyStrip(k)
    ensures SecretValue(k + "=" + v) == Strip(PyStrip(v), IsQuote)
  {
    var line := k + "=" + v;
    assert line[..|k|] == k && line[|k|] == '=';
    assert IndexOf(line, '=') == |k|;
    assert line[|k| + 1..] == v;
  }

  /** Blank lines, comment lines and lines without `=` set nothing. */
  lemma SkippedLines(raw: string)
    requires var line := PyStrip(raw); line == [] || line[0] == '#' || '=' !in line
    ensures ParseSecretLine(raw).None?
  {
  }

  /** A name without `=` that starts no comment, a value without padding: `NAME=value` sets exactly that. */
  lemma CleanLineSets(k: string, v: string)
    requires k != [] && k[0] != '#' && '=' !in k && !IsPySpace(k[0]) && !IsPySpace(k[|k| - 1])
    requires v != [] && !IsPySpace(v[0]) && !IsPySpace(v[|v| - 1]) && !IsQuote(v[0]) && !IsQuote(v[|v| - 1])
    ensures ParseSecretLine(k + "=" + v) == Some(Entry(k, v))
  {
    StripClean(v, IsPySpace);
    StripClean(v, IsQuote);
    NamedLineSets(k, v, v);
  }

  /** Quotes around a value are dropped: `NAME="value"` sets the value without them. */
  lemma QuotedLineSets(k: string, v: string)
    requires k != [] && k[0] != '#' && '=' !in k && !IsPySpace(k[0]) && !IsPySpace(k[|k| - 1])
    requires v != [] && !IsPySpace(v[0]) && !IsPySpace(v[|v| - 1]) && !IsQuote(v[0]) && !IsQuote(v[|v| - 1])
    ensures ParseSecretLine(k + "=" + ("\"" + v + "\"")) == Some(Entry(k, v))
  {
    var q := "\"" + v + "\"";
    assert q == ['"'] + v + ['"'];
    StripClean(q, IsPySpace);
    StripWrapped('"', v, IsQuote);
    NamedLineSets(k, q, v);
  }

  /** A clean name, `=`, and a text that cleans to the non-empty `val`: the line sets `val` under the name. */
  lemma NamedLineSets(k: string, v: string, val: string)
    requires k != [] && k[0] != '#' && '=' !in k && !IsPySpace(k[0]) && !IsPySpace(k[|k| - 1])
    requires v != [] && !IsPySpace(v[|v| - 1])
    requires val != [] && Strip(PyStrip(v), IsQuote) == val
    ensures ParseSecretLine(k + "=" + v) == Some(Entry(k, val))
  {
    SecretSplit(k, v);
    StripClean(k, IsPySpace);
    SplitLineSets(k, v);
  }

  /** A line `k=v` with nothing to strip at its ends sets whatever its cleaned sides are. */
  lemma SplitLineSets(k: string, v: string)
    requires k != [] && k[0] != '#' && !IsPySpace(k[0]) && v != [] && !IsPySpace(v[|v| - 1])
    requires SecretKey(k + "=" + v) != [] && SecretValue(k + "=" + v) != []
    ensures ParseSecretLine(k + "=" + v) == Some(Entry(SecretKey(k + "=" + v), SecretValue(k + "=" + v)))
  {
    var line := k + "=" + v;
    assert line[0] == k[0] && line[|line| - 1] == v[|v| - 1] && line[|k|] == '=';
    StripClean(line, IsPySpace);
    assert PyStrip(line) == line;
    assert line != [] && line[0] != '#' && '=' in line;
    assert Assignment(line) == Some(Entry(SecretKey(line), SecretValue(line)));
  }

  /** `os.environ.setdefault(key, val)` for a line that sets something. */
  function SetDefault(env: map<string, string>, entry: Option<Entry>): (r: map<string, string>)
    ensures env.Keys <= r.Keys
    ensures forall k :: k in env ==> r[k] == env[k]
    ensures entry.Some? && entry.value.key !in env ==> entry.value.key in r && r[entry.value.key] == entry.value.val
    ensures forall k :: k in r && k !in env ==> entry == Some(Entry(k, r[k]))
  {
    if entry.Some? && entry.value.key !in env then env[entry.value.key := entry.value.val] else env
  }

  /** What each line of the file sets, line by line. */
  function ParsedLines(lines: seq<string>): (r: seq<Option<Entry>>)
    ensures |r| == |lines| && forall k :: 0 <= k < |lines| ==> r[k] == ParseSecretLine(lines[k])
  {
    seq(|lines|, k requires 0 <= k < |lines| => ParseSecretLine(lines[k]))
  }

  /** The parsed lines applied with `setdefault`, in file order. */
  function Applied(env: map<string, string>, entries: seq<Option<Entry>>): map<string, string>
    decreases |entries|
  {
    if entries == [] then env
    else Applied(SetDefault(env, entries[0]), entries[1..])
  }

  class Environ {
    var vars: map<string, string>

    constructor (initial: map<string, string>)
      ensures vars == initial
    {
      vars := initial;
    }

    /** Read the secrets file's text into the environment. */
    method LoadSecrets(text: string)
      modifies this
      ensures vars == Applied(old(vars), ParsedLines(Lines(text)))
    {
      var lines := Lines(text);
      ghost var entries := ParsedLines(lines);
      var i := 0;
      while i < |lines|
        invariant 0 <= i <= |lines|
        invariant Applied(vars, entries[i..]) == Applied(old(vars), entries)
      {
        assert entries[i..][1..] == entries[i + 1..];
        assert entries[i] == ParseSecretLine(lines[i]);
        var line := PyStrip(lines[i]);
        if line != [] && line[0] != '#' && '=' in line {
          var entry := Assignment(line);
          if entry.Some? && entry.value.key !in vars {
            vars := vars[entry.value.key := entry.value.val];
          }
        }
        i := i + 1;
      }
      assert entries[i..] == [];
    }
  }

  /** Loading never overrides a variable that is already set, and only adds keys. */
  lemma {:induction false} LoadKeepsExisting(env: map<string, string>, entries: seq<Option<Entry>>)
    ensures env.Keys <= Applied(env, entries).Keys
    ensures forall k :: k in env ==> Applied(env, entries)[k] == env[k]
    decreases |entries|
  {
    if entries != [] {
      LoadKeepsExisting(SetDefault(env, entries[0]), entries[1..]);
    }
  }

  /** Every variable the loader adds comes from some line of the file. */
  lemma {:induction false} LoadedFromLines(env: map<string, string>, entries: seq<Option<Entry>>)
    ensures forall k :: k in Applied(env, entries) && k !in env ==>
              exists i :: 0 <= i < |entries| && entries[i] == Some(Entry(k, Applied(env, entries)[k]))
    decreases |entries|
  {
    if entries != [] {
      var next := SetDefault(env, entries[0]);
      var rest := entries[1..];
      LoadedFromLines(next, rest);
      LoadKeepsExisting(next, rest);
      forall k | k in Applied(env, entries) && k !in env
        ensures exists i :: 0 <= i < |entries| && entries[i] == Some(Entry(k, Applied(env, entries)[k]))
      {
        if k in next {
          assert entries[0] == Some(Entry(k, next[k]));
        } else {
          var i :| 0 <= i < |rest| && rest[i] == Some(Entry(k, Applied(next, rest)[k]));
          assert entries[i + 1] == rest[i];
        }
      }
    }
  }

  /** When a key is set on several lines, the first one wins. */
  lemma {:induction false} FirstLineWins(env: map<string, string>, entries: seq<Option<Entry>>, i: nat, k: string, v: string)
    requires i < |entries| && k !in env && entries[i] == Some(Entry(k, v))
    requires forall j :: 0 <= j < i ==> entries[j].None? || entries[j].value.key != k
    ensures k in Applied(env, entries) && Applied(env, entries)[k] == v
    decreases |entries|
  {
    var next := SetDefault(env, entries[0]);
    var rest := entries[1..];
    if i == 0 {
      LoadKeepsExisting(next, rest);
    } else {
      assert k !in next;
      forall j | 0 <= j < i - 1
        ensures rest[j].None? || rest[j].value.key != k
      {
        assert rest[j] == entries[j + 1];
      }
      FirstLineWins(next, rest, i - 1, k, v);
    }
  }

  // ---------------------------------------------------------------- rate-limit properties

  lemma {:induction false} CountRecentAppend(ts: seq<real>, x: real, now: real, window: real)
    ensures CountRecent(ts + [x], now, window) == CountRecent(ts, now, window) + (if now - x < window then 1 else 0)
  {
    if ts != [] {
      assert (ts + [x])[1..] == ts[1..] + [x];
      CountRecentAppend(ts[1..], x, now, window);
    }
  }

  /**
   * Right after an accepted request the client has at most ten timestamps in the last minute and
   * at most fifty in the last hour, all of them less than an hour old.
   */
  lemma AcceptedStaysWithinLimits(bucket: seq<real>, now: real)
    requires RateVerdict(Prune(bucket, now), now).None?
    ensures var after := Prune(bucket, now) + [now];
            CountRecent(after, now, 60.0) <= RateLimitPerMin && |after| <= RateLimitPerHour
            && forall k :: 0 <= k < |after| ==> now - after[k] < 3600.0
  {
    CountRecentAppend(Prune(bucket, now), now, now, 60.0);
  }

  /** Pruning twice at the same time prunes nothing more than pruning once. */
  lemma {:induction false} PruneIdempotent(ts: seq<real>, now: real)
    ensures Prune(Prune(ts, now), now) == Prune(ts, now)
  {
    if ts != [] {
      PruneIdempotent(ts[1..], now);
      var head := if now - ts[0] < 3600.0 then [ts[0]] else [];
      var p := head + Prune(ts[1..], now);
      if head != [] {
        assert p[0] == ts[0] && p[1..] == Prune(ts[1..], now);
        assert Prune(p, now) == [p[0]] + Prune(p[1..], now);
      } else {
        assert p == Prune(ts[1..], now);
      }
    }
  }

  /** Pruning works timestamp by timestamp: the pruned list of a joined history is the two pruned lists joined. */
  lemma {:induction false} PruneAppend(a: seq<real>, b: seq<real>, now: real)
    ensures Prune(a + b, now) == Prune(a, now) + Prune(b, now)
  {
    if a == [] {
      assert a + b == b;
    } else {
      assert (a + b)[1..] == a[1..] + b;
      PruneAppend(a[1..], b, now);
    }
  }
}
