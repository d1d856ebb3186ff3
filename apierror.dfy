/** The API error model: the first `[id, description]` pair of a reply's `errors`
    list becomes an APIError carrying the instant after which a retry is allowed.
    Instants and durations are integer nanoseconds; "now" is always a parameter. */
module ApiError {
  import opened Wrappers
  import opened Types

  /** One second in nanoseconds (time.Second). */
  const Second: int := 1_000_000_000

  /** An API error: its id, its description and the end of its rate limit. */
  datatype APIError = APIError(id: string, desc: string, wait: int) {

    /** The error text "<id>: <desc>". */
    function Error(): (m: string)
      ensures |m| == |id| + 2 + |desc|
      ensures m[..|id|] == id && m[|id|..|id| + 2] == ": " && m[|id| + 2..] == desc
    {
      id + ": " + desc
    }

    /** A rate limit is in effect iff its end lies strictly after `now`. */
    predicate IsRatelimited(now: int)
      ensures IsRatelimited(now) <==> Duration(now) > 0
    {
      wait > now
    }

    /** What is left of the rate limit at `now`; negative once it has passed. */
    function Duration(now: int): (d: int)
      ensures now + d == wait
    {
      wait - now
    }
  }

  /** Every error the client returns. */
  datatype Failure =
    | TransportError(msg: string)   // the HTTP round trip itself failed
    | StatusError(status: string)   // an HTTP status other than 200, by its status text
    | DecodeError                   // a reply did not decode into the expected shape
    | Api(apiError: APIError)       // the server reported an error in the reply
    | NoCredentials                 // Login without user name or password
    | NoValues                      // a POST without form values

  type Outcome<T> = Result<T, Failure>

  /** The first error entry, when there is one, has an id and a description;
      the source indexes both without a check. */
  predicate ErrorsIndexable(reply: JsonAPIReply)
  {
    reply.errors == [] || |reply.errors[0]| >= 2
  }

  /** How long a reply's `ratelimit` asks the client to wait: the float seconds
      truncated to whole seconds when positive, nothing otherwise. */
  function RetryDelay(ratelimit: real): (d: int)
    ensures d >= 0
    ensures d > 0 <==> ratelimit >= 1.0
    ensures ratelimit > 0.0 ==> d <= (ratelimit * Second as real).Floor
    ensures ratelimit > 0.0 ==> d % Second == 0 && d as real <= ratelimit * Second as real < (d + Second) as real
  {
    if ratelimit > 0.0 then ratelimit.Floor * Second else 0
  }

  /** The error of a reply made at `now`: none for an empty `errors` list,
      otherwise built from the first pair alone. */
  function NewAPIError(reply: JsonAPIReply, now: int): (e: Option<APIError>)
    requires ErrorsIndexable(reply)
    ensures e.None? <==> reply.errors == []
    ensures e.Some? ==> e.value.id == reply.errors[0][0] && e.value.desc == reply.errors[0][1]
    ensures e.Some? ==> e.value.wait >= now
    ensures e.Some? ==> (e.value.IsRatelimited(now) <==> reply.ratelimit >= 1.0)
  {
    if reply.errors == [] then None
    else
      var err := APIError(reply.errors[0][0], reply.errors[0][1], now);
      if reply.ratelimit > 0.0 then Some(err.(wait := err.wait + reply.ratelimit.Floor * Second))
      else Some(err)
  }

  /** Only the first error pair is surfaced: replies that agree on it and on the
      rate limit give the same error. */
  lemma LaterErrorsIgnored(r1: JsonAPIReply, r2: JsonAPIReply, now: int)
    requires r1.errors != [] && r2.errors != [] && |r1.errors[0]| >= 2 && |r2.errors[0]| >= 2
    requires r1.errors[0][..2] == r2.errors[0][..2] && r1.ratelimit == r2.ratelimit
    ensures NewAPIError(r1, now) == NewAPIError(r2, now)
  {
    assert r1.errors[0][0] == r1.errors[0][..2][0] == r2.errors[0][0];
    assert r1.errors[0][1] == r1.errors[0][..2][1] == r2.errors[0][1];
  }

  /** The end of the rate limit is `now` plus the whole seconds of `ratelimit`. */
  lemma NewAPIErrorWait(reply: JsonAPIReply, now: int)
    requires reply.errors != [] && |reply.errors[0]| >= 2
    ensures NewAPIError(reply, now).Some?
    ensures NewAPIError(reply, now).value.wait == now + RetryDelay(reply.ratelimit)
  {
  }

  /** A rate-limited error stays rate-limited exactly until its end. */
  lemma RatelimitedUntilWait(e: APIError, now: int)
    ensures e.IsRatelimited(now) <==> e.Duration(now) > 0
  {
  }

  /** An error without a rate limit is never rate-limited from its creation on. */
  lemma NoRatelimitNeverLimited(reply: JsonAPIReply, created: int, now: int)
    requires reply.errors != [] && |reply.errors[0]| >= 2
    requires reply.ratelimit <= 0.0
    requires now >= created
    ensures !NewAPIError(reply, created).value.IsRatelimited(now)
    ensures NewAPIError(reply, created).value.Duration(now) <= 0
  {
  }

  /** A positive rate limit below one second truncates to nothing: the error is
      not rate-limited even at its creation. */
  lemma SubsecondRatelimitIgnored(reply: JsonAPIReply, now: int)
    requires reply.errors != [] && |reply.errors[0]| >= 2
    requires 0.0 < reply.ratelimit < 1.0
    ensures !NewAPIError(reply, now).value.IsRatelimited(now)
  {
  }

  /** Go's int(d.Seconds()): whole seconds, truncated toward zero. */
  function TruncSeconds(d: int): (s: int)
    ensures d >= 0 ==> s * Second <= d < (s + 1) * Second
    ensures d < 0 ==> (s - 1) * Second < d <= s * Second
  {
    if d >= 0 then d / Second else -((-d) / Second)
  }

  /** The rate-limited case of the error tests: a reply with `ratelimit` 600 read
      back within a second of its creation is rate-limited with 599 whole seconds left. */
  lemma RatelimitScenario(created: int, now: int)
    requires created < now <= created + Second
    ensures var reply := JsonAPIReply("", [["RATELIMIT", "Test", "vdelay"]], "", "", "", 600.0);
            var e := NewAPIError(reply, created).value;
            e.Error() == "RATELIMIT: Test" && e.IsRatelimited(now) && TruncSeconds(e.Duration(now)) == 599
  {
    var reply := JsonAPIReply("", [["RATELIMIT", "Test", "vdelay"]], "", "", "", 600.0);
    var e := NewAPIError(reply, created).value;
    assert e.wait == created + 600 * Second;
    var d := e.Duration(now);
    assert 599 * Second <= d < 600 * Second;
  }

  /** The wrong-password case of the error tests: no rate limit, and zero whole
      seconds left within a second of creation. */
  lemma WrongPasswordScenario(created: int, now: int)
    requires created <= now < created + Second
    ensures var reply := JsonAPIReply("", [["WRONG_PASSWORD", "Test", "passwd"]], "", "", "", 0.0);
            var e := NewAPIError(reply, created).value;
            e.Error() == "WRONG_PASSWORD: Test" && !e.IsRatelimited(now) && TruncSeconds(e.Duration(now)) == 0
  {
  }
}
