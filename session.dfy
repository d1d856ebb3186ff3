/** The session: credentials (cookie and modhash), the rate-limit counters, the
    headers every request carries, and the calls that change them. The HTTP
    client, the form/query encoder and JSON decoding come from outside as an Env. */
module Sessions {
  import opened Wrappers
  import opened Strconv
  import opened Types
  import opened ApiError
  import opened Util

  /** HTTP headers and url.Values, one value per key (the source only ever Sets). */
  type Header = map<string, string>
  type Params = map<string, string>

  const StatusOK: int := 200
  const FormContentType: string := "application/x-www-form-urlencoded"

  /** An outgoing HTTP request. */
  datatype Request = Request(verb: string, url: string, header: Header, body: Option<string>)

  /** A received HTTP response; `body` is the raw JSON text. */
  datatype Response = Response(status: int, statusText: string, header: Header, body: RawJson)

  /** Login credentials. */
  datatype Authconfig = Authconfig(user: string, password: string)

  /** The server's rate-limit counters as last read. */
  datatype RateLimit = RateLimit(remaining: Int, reset: Int, used: Int)

  /** What the client gets from outside: the HTTP round trip (a transport error or a
      response), url.Values.Encode, and the JSON decoders. */
  datatype Env = Env(client: Request -> Outcome<Response>, encode: Params -> string, json: Decoders)

  /** http.Header.Get: the value, or "" when the header is missing. */
  function HeaderGet(h: Header, key: string): string
  {
    if key in h then h[key] else ""
  }

  /** The counters read from a response: each header through Atoi, 0 when it is
      missing or unparsable. */
  function RateLimitOf(h: Header): (r: RateLimit)
    ensures "X-Ratelimit-Used" !in h ==> r.used == 0
    ensures "X-Ratelimit-Reset" !in h ==> r.reset == 0
    ensures "X-Ratelimit-Remaining" !in h ==> r.remaining == 0
    ensures var v := HeaderGet(h, "X-Ratelimit-Used"); |v| <= 20 && !IsDecimal(v) ==> r.used == 0
    ensures var v := HeaderGet(h, "X-Ratelimit-Reset"); |v| <= 20 && !IsDecimal(v) ==> r.reset == 0
    ensures var v := HeaderGet(h, "X-Ratelimit-Remaining"); |v| <= 20 && !IsDecimal(v) ==> r.remaining == 0
  {
    RateLimit(
      Atoi(HeaderGet(h, "X-Ratelimit-Remaining")),
      Atoi(HeaderGet(h, "X-Ratelimit-Reset")),
      Atoi(HeaderGet(h, "X-Ratelimit-Used")))
  }

  /** Counters the server wrote in decimal are read back exactly. */
  lemma RateLimitOfDecimal(h: Header, remaining: Int, reset: Int, used: Int)
    requires HeaderGet(h, "X-Ratelimit-Remaining") == FormatInt(remaining)
    requires HeaderGet(h, "X-Ratelimit-Reset") == FormatInt(reset)
    requires HeaderGet(h, "X-Ratelimit-Used") == FormatInt(used)
    ensures RateLimitOf(h) == RateLimit(remaining, reset, used)
  {
    AtoiFormatInt(remaining);
    AtoiFormatInt(reset);
    AtoiFormatInt(used);
  }

  /** A GET of `u`, with "?" and the encoded values appended only when there are values. */
  function GetRequest(u: string, v: Option<Params>, h: Header, encode: Params -> string): Request
  {
    Request("GET", if v.Some? then u + "?" + encode(v.value) else u, h, None)
  }

  /** A form POST of `v` to `u`. */
  function PostRequest(u: string, v: Params, h: Header, encode: Params -> string): Request
  {
    Request("POST", u, h["Content-Type" := FormContentType], Some(encode(v)))
  }

  function LoginValues(ac: Authconfig): Params
  {
    map["api_type" := "json", "user" := ac.user, "passwd" := ac.password]
  }

  function CommentValues(parent: string, text: string): Params
  {
    map["api_type" := "json", "thing_id" := parent, "text" := text]
  }

  /** Login has something to send: a config with a user name and a password. */
  predicate CredentialsPresent(ac: Option<Authconfig>)
  {
    ac.Some? && |ac.value.user| != 0 && |ac.value.password| != 0
  }

  /** The login request. The session's cookie and modhash are cleared before it is
      built, so only the user agent goes with it. */
  function LoginRequest(ua: string, ac: Authconfig, encode: Params -> string): Request
  {
    PostRequest(BuildURL(APILogin, true), LoginValues(ac), map["User-Agent" := ua], encode)
  }

  /** The login request never carries the credentials it is about to replace. */
  lemma LoginRequestCarriesNoCredentials(ua: string, ac: Authconfig, encode: Params -> string)
    ensures var r := LoginRequest(ua, ac, encode);
            r.verb == "POST" && r.url == "https://www.reddit.com/api/login" &&
            r.header.Keys == {"User-Agent", "Content-Type"} &&
            r.header["Content-Type"] == FormContentType &&
            r.body == Some(encode(LoginValues(ac)))
  {
  }

  /** The session cookie made from the cookie value of a login reply. */
  function SessionCookie(value: string): string
  {
    StrCookie + "=" + value
  }

  /** The login reply carried by a response body: an API reply without errors whose
      `data` decodes. */
  function LoginAnswer(body: RawJson, dec: Decoders, now: int): (r: Outcome<LoginReply>)
    requires ReplyIndexable(body, dec)
    ensures r.Ok? <==> ApiReply(body, dec, now).Ok? && dec.loginReply(ApiReply(body, dec, now).value.data).Some?
    ensures r.Ok? ==> Some(r.value) == dec.loginReply(dec.apiReply(body).value.data)
    ensures r.Err? && ApiReply(body, dec, now).Ok? ==> r.error == DecodeError
    ensures ApiReply(body, dec, now).Err? ==> r == Err(ApiReply(body, dec, now).error)
  {
    match ApiReply(body, dec, now)
    case Err(e) => Err(e)
    case Ok(reply) =>
      match dec.loginReply(reply.data)
      case None => Err(DecodeError)
      case Some(a) => Ok(a)
  }

  /** Whatever login reply arrives with a 200 status can be read by NewAPIError. */
  predicate LoginReplyIndexable(ua: string, ac: Option<Authconfig>, env: Env)
  {
    CredentialsPresent(ac) ==>
      var resp := env.client(LoginRequest(ua, ac.value, env.encode));
      resp.Ok? && resp.value.status == StatusOK ==> ReplyIndexable(resp.value.body, env.json)
  }

  /** The account a Me response decodes to: a Thing, then its data as an Account.
      The Thing's kind is not checked. */
  function MeAccount(resp: Response, dec: Decoders): Option<Account>
  {
    match dec.thing(resp.body)
    case None => None
    case Some(thing) => dec.account(thing.data)
  }

  /** The things of a comment reply: an API reply without errors whose `data`
      decodes into a list of things. */
  function CommentThings(resp: Response, dec: Decoders, now: int): Option<seq<Thing>>
    requires ReplyIndexable(resp.body, dec)
  {
    match ApiReply(resp.body, dec, now)
    case Err(_) => None
    case Ok(reply) => dec.commentThings(reply.data)
  }

  class Session {
    const useragent: string
    var cookie: string
    var modhash: string
    var rateLimit: RateLimit

    /** NewSession: an unauthenticated session. */
    constructor (ua: string)
      ensures useragent == ua && cookie == "" && modhash == "" && rateLimit == RateLimit(0, 0, 0)
    {
      useragent := ua;
      cookie := "";
      modhash := "";
      rateLimit := RateLimit(0, 0, 0);
    }

    /** The headers of every request: the user agent always, the cookie and the
        modhash only when they are set. */
    function HttpHeaders(): (h: Header)
      reads this
      ensures "User-Agent" in h && h["User-Agent"] == useragent
      ensures ("Cookie" in h) <==> cookie != ""
      ensures "Cookie" in h ==> h["Cookie"] == cookie
      ensures ("X-Modhash" in h) <==> modhash != ""
      ensures "X-Modhash" in h ==> h["X-Modhash"] == modhash
      ensures h.Keys <= {"User-Agent", "Cookie", "X-Modhash"}
    {
      var h := map["User-Agent" := useragent];
      var h := if |cookie| != 0 then h["Cookie" := cookie] else h;
      if |modhash| != 0 then h["X-Modhash" := modhash] else h
    }

    /** A signed GET; the query string is appended only when values are given. */
    method Get(u: string, v: Option<Params>, env: Env) returns (sent: Request, resp: Outcome<Response>)
      ensures sent.verb == "GET" && sent.header == HttpHeaders() && sent.body.None?
      ensures v.None? ==> sent.url == u
      ensures v.Some? ==> sent.url == u + "?" + env.encode(v.value)
      ensures resp == env.client(sent)
    {
      var target := u;
      if v.Some? {
        target := u + "?" + env.encode(v.value);
      }
      sent := Request("GET", target, HttpHeaders(), None);
      resp := env.client(sent);
    }

    /** A signed form POST; without values it fails and sends nothing. */
    method Post(u: string, v: Option<Params>, env: Env) returns (sent: Option<Request>, resp: Outcome<Response>)
      ensures v.None? <==> sent.None?
      ensures v.None? ==> resp == Err(NoValues)
      ensures v.Some? ==> sent.value.verb == "POST" && sent.value.url == u &&
                          sent.value.body == Some(env.encode(v.value)) &&
                          sent.value.header == HttpHeaders()["Content-Type" := FormContentType] &&
                          resp == env.client(sent.value)
    {
      if v.None? {
        return None, Err(NoValues);
      }
      var req := Request("POST", u, HttpHeaders(), Some(env.encode(v.value)));
      req := req.(header := req.header["Content-Type" := FormContentType]);
      sent := Some(req);
      resp := env.client(req);
    }

    /** Me: fetch the session's own account and adopt its modhash. */
    method Me(env: Env) returns (r: Outcome<Account>)
      modifies this`modhash
      ensures var resp := env.client(GetRequest(BuildURL(APIMe, true), None, old(HttpHeaders()), env.encode));
              (resp.Err? ==> r == Err(resp.error)) &&
              (resp.Ok? ==> (r.Ok? <==> MeAccount(resp.value, env.json).Some?)) &&
              (resp.Ok? && r.Err? ==> r.error == DecodeError) &&
              (r.Ok? ==> MeAccount(resp.value, env.json) == Some(r.value))
      ensures r.Ok? ==> modhash == r.value.modhash
      ensures r.Err? ==> modhash == old(modhash)
    {
      var sent, resp := Get(BuildURL(APIMe, true), None, env);
      if resp.Err? {
        return Err(resp.error);
      }
      var thing := env.json.thing(resp.value.body);
      if thing.None? {
        return Err(DecodeError);
      }
      // the kind of the thing is not checked
      var account := env.json.account(thing.value.data);
      if account.None? {
        return Err(DecodeError);
      }
      modhash := account.value.modhash;
      r := Ok(account.value);
    }

    /** The request Comment sends for a reply `text` to `parent`. */
    function CommentRequest(parent: string, text: string, encode: Params -> string): Request
      reads this
    {
      PostRequest(BuildURL(APIComment, true), CommentValues(parent, text), HttpHeaders(), encode)
    }

    /** What Comment needs to run to completion: the post goes through (its error is
        not checked before the status is read), the reply can be read by NewAPIError,
        and a decoded list of things is not empty (its first element is read unchecked). */
    predicate CommentReplyUsable(parent: string, text: string, env: Env, now: int)
      reads this
    {
      var resp := env.client(CommentRequest(parent, text, env.encode));
      resp.Ok? &&
      (resp.value.status == StatusOK ==>
        ReplyIndexable(resp.value.body, env.json) &&
        (CommentThings(resp.value, env.json, now).Some? ==> |CommentThings(resp.value, env.json, now).value| > 0))
    }

    /** Comment: post a reply and decode the result from the first returned thing. */
    method Comment(parent: string, text: string, env: Env, now: int) returns (r: Outcome<CommentResult>)
      requires CommentReplyUsable(parent, text, env, now)
      ensures var resp := env.client(CommentRequest(parent, text, env.encode)).value;
              (resp.status != StatusOK ==> r == Err(StatusError(resp.statusText))) &&
              (resp.status == StatusOK ==>
                (ApiReply(resp.body, env.json, now).Err? ==> r == Err(ApiReply(resp.body, env.json, now).error)) &&
                (r.Ok? <==> CommentThings(resp, env.json, now).Some? &&
                            env.json.commentResult(CommentThings(resp, env.json, now).value[0].data).Some?) &&
                (r.Ok? ==> env.json.commentResult(CommentThings(resp, env.json, now).value[0].data) == Some(r.value)) &&
                (ApiReply(resp.body, env.json, now).Ok? && r.Err? ==> r.error == DecodeError))
    {
      var v := map["api_type" := "json"];
      v := v["thing_id" := parent];
      v := v["text" := text];
      assert v == CommentValues(parent, text);
      var sent, resp := Post(BuildURL(APIComment, true), Some(v), env);
      var response := resp.value;
      if response.status != StatusOK {
        return Err(StatusError(response.statusText));
      }
      var (reply, err) := GetJSON(response.body, env.json, now);
      if err.Some? {
        return Err(err.value);
      }
      var things := env.json.commentThings(reply.value.data);
      if things.None? {
        return Err(DecodeError);
      }
      var cr := env.json.commentResult(things.value[0].data);
      if cr.None? {
        return Err(DecodeError);
      }
      r := Ok(cr.value);
    }

    /** Login: check the credentials, clear the old ones, post the login, read the
        rate-limit counters from a 200 reply and adopt the new cookie and modhash. */
    method Login(ac: Option<Authconfig>, env: Env, now: int) returns (err: Option<Failure>)
      requires LoginReplyIndexable(useragent, ac, env)
      modifies this`cookie, this`modhash, this`rateLimit
      ensures !CredentialsPresent(ac) ==>
                err == Some(NoCredentials) &&
                cookie == old(cookie) && modhash == old(modhash) && rateLimit == old(rateLimit)
      ensures CredentialsPresent(ac) ==>
                var resp := env.client(LoginRequest(useragent, ac.value, env.encode));
                (resp.Err? ==> err == Some(resp.error) && rateLimit == old(rateLimit)) &&
                (resp.Ok? && resp.value.status != StatusOK ==>
                   err == Some(StatusError(resp.value.statusText)) && rateLimit == old(rateLimit)) &&
                (resp.Ok? && resp.value.status == StatusOK ==>
                   rateLimit == RateLimitOf(resp.value.header) &&
                   (err.None? <==> LoginAnswer(resp.value.body, env.json, now).Ok?) &&
                   (err.Some? ==> err.value == LoginAnswer(resp.value.body, env.json, now).error) &&
                   (err.None? ==> cookie == SessionCookie(LoginAnswer(resp.value.body, env.json, now).value.cookie) &&
                                  modhash == LoginAnswer(resp.value.body, env.json, now).value.modhash)) &&
                (err.Some? ==> cookie == "" && modhash == "")
    {
      if ac.None? || |ac.value.user| == 0 || |ac.value.password| == 0 {
        return Some(NoCredentials);
      }
      var v := map["api_type" := "json"];
      v := v["user" := ac.value.user];
      v := v["passwd" := ac.value.password];
      assert v == LoginValues(ac.value);

      cookie := "";
      modhash := "";
      assert HttpHeaders() == map["User-Agent" := useragent];

      var sent, resp := Post(BuildURL(APILogin, true), Some(v), env);
      if resp.Err? {
        return Some(resp.error);
      }
      var response := resp.value;
      if response.status != StatusOK {
        return Some(StatusError(response.statusText));
      }
      rateLimit := rateLimit.(used := Atoi(HeaderGet(response.header, "X-Ratelimit-Used")));
      rateLimit := rateLimit.(reset := Atoi(HeaderGet(response.header, "X-Ratelimit-Reset")));
      rateLimit := rateLimit.(remaining := Atoi(HeaderGet(response.header, "X-Ratelimit-Remaining")));

      var (reply, e) := GetJSON(response.body, env.json, now);
      if e.Some? {
        return e;
      }
      var answer := env.json.loginReply(reply.value.data);
      if answer.None? {
        return Some(DecodeError);
      }
      cookie := SessionCookie(answer.value.cookie);
      modhash := answer.value.modhash;
      err := None;
    }
  }
}
