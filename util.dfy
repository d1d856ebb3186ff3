/** Small helpers shared by the whole client: API URLs, creation timestamps and
    the decoding of a JSON API reply together with its error. */
module Util {
  import opened Wrappers
  import opened Strconv
  import opened Types
  import opened ApiError

  const StrReddit: string := "www.reddit.com"
  const StrCookie: string := "reddit_session"

  /** API method paths. */
  const APIComment: string := "/api/comment"
  const APILogin: string := "/api/login"
  const APIMe: string := "/api/me.json"

  /** The path of a subreddit listing ("/r/%s.json" filled with its name). */
  function ListingPath(sub: string): string
  {
    "/r/" + sub + ".json"
  }

  /** The URL of an API method on the server, over https iff `secure`. */
  function BuildURL(apiMethod: string, secure: bool): (u: string)
    ensures secure ==> u == "https://www.reddit.com" + apiMethod
    ensures !secure ==> u == "http://www.reddit.com" + apiMethod
  {
    var scheme := if secure then "http" + "s" else "http";
    scheme + "://" + StrReddit + apiMethod
  }

  /** The method path and the choice of scheme can both be read back from a URL. */
  lemma BuildURLInjective(m1: string, s1: bool, m2: string, s2: bool)
    requires BuildURL(m1, s1) == BuildURL(m2, s2)
    ensures m1 == m2 && s1 == s2
  {
    var u := BuildURL(m1, s1);
    assert u[4] == (if s1 then 's' else ':') == (if s2 then 's' else ':');
    var k := if s1 then 22 else 21;
    assert m1 == u[k..] == m2;
  }

  /** The two cases of the URL tests. */
  lemma BuildURLTable()
    ensures BuildURL("/notls", false) == "http://www.reddit.com/notls"
    ensures BuildURL("/withtls", true) == "https://www.reddit.com/withtls"
  {
  }

  /** An instant as Go's time.Time holds it: seconds and a nanosecond part in [0, 1e9). */
  datatype Time = Time(sec: int, nsec: int)

  /** time.Unix(sec, nsec): nanoseconds outside [0, 1e9) carry into the seconds. */
  function Unix(sec: int, nsec: int): (t: Time)
    ensures 0 <= t.nsec < Second
    ensures t.sec * Second + t.nsec == sec * Second + nsec
  {
    Time(sec + nsec / Second, nsec % Second)
  }

  /** A creation timestamp "S.F" in decimal seconds: S and F each parsed with
      Atoi (0 when unparsable), F taken as a nanosecond count as written, and
      everything after a second '.' ignored. */
  function TimeFromNumber(n: string): (t: Time)
    ensures 0 <= t.nsec < Second
    ensures '.' !in n ==> t.sec == Atoi(n) && t.nsec == 0
  {
    var parts := Split(n, '.');
    assert '.' !in n ==> parts == [n] by {
      if '.' !in n {
        SplitNoSeparator(n, '.');
      }
    }
    var s := Atoi(parts[0]);
    var u := if |parts| > 1 then Atoi(parts[1]) else 0;
    Unix(s, u)
  }

  /** "S.F" with separator-free S and F reads as Unix(Atoi(S), Atoi(F)). */
  lemma TimeFromNumberFraction(s: string, f: string)
    requires '.' !in s && '.' !in f
    ensures TimeFromNumber(s + "." + f) == Unix(Atoi(s), Atoi(f))
  {
    SplitAtFirst(s, f, '.');
    SplitNoSeparator(f, '.');
  }

  /** Without a '.', the fractional part is 0. */
  lemma TimeFromNumberWhole(s: string)
    requires '.' !in s
    ensures TimeFromNumber(s) == Unix(Atoi(s), 0)
  {
    SplitNoSeparator(s, '.');
  }

  /** Only the first two '.'-separated parts are read. */
  lemma TimeFromNumberIgnoresRest(s: string, f: string, rest: string)
    requires '.' !in s && '.' !in f
    ensures TimeFromNumber(s + "." + f + "." + rest) == TimeFromNumber(s + "." + f)
  {
    SplitAtFirst(s, f + "." + rest, '.');
    assert s + "." + f + "." + rest == s + ['.'] + (f + "." + rest);
    SplitAtFirst(f, rest, '.');
    assert f + "." + rest == f + ['.'] + rest;
    TimeFromNumberFraction(s, f);
    assert s + "." + f == s + ['.'] + f;
  }

  /** The well-formed cases of the timestamp tests. */
  lemma TimeFromNumberDigits()
    ensures TimeFromNumber("12345.6789") == Unix(12345, 6789)
    ensures TimeFromNumber("12345") == Unix(12345, 0)
  {
    AtoiFormatInt(12345);
    AtoiFormatInt(6789);
    assert FormatInt(12345) == "12345";
    assert FormatInt(6789) == "6789";
    assert "12345.6789" == "12345" + "." + "6789";
    TimeFromNumberFraction("12345", "6789");
    TimeFromNumberWhole("12345");
  }

  /** The malformed cases of the timestamp tests: bad seconds read as 0 while
      the fraction is still parsed. */
  lemma TimeFromNumberMalformed()
    ensures TimeFromNumber("123oops456.789") == Unix(0, 789)
    ensures TimeFromNumber("123oops456") == Unix(0, 0)
  {
    AtoiFormatInt(789);
    assert FormatInt(789) == "789";
    AtoiOops();
    assert "123oops456.789" == "123oops456" + "." + "789";
    TimeFromNumberFraction("123oops456", "789");
    TimeFromNumberWhole("123oops456");
  }

  lemma AtoiOops()
    ensures Atoi("123oops456") == 0
  {
    ScanDigitsOfDigits(123);
    assert Digits(123) == "123";
    ScanDigitsAppend("123", "oops456", 0);
    assert "123oops456" == "123" + "oops456";
  }

  /** The reply in `body` can be read by NewAPIError without running off its first error. */
  predicate ReplyIndexable(body: RawJson, dec: Decoders)
  {
    dec.apiReply(body).Some? ==> ErrorsIndexable(dec.apiReply(body).value)
  }

  /** Decode a JSON API reply: a decode error and no reply, or the reply together
      with the error its `errors` list reports (none when the list is empty). */
  function GetJSON(body: RawJson, dec: Decoders, now: int): (r: (Option<JsonAPIReply>, Option<Failure>))
    requires ReplyIndexable(body, dec)
    ensures dec.apiReply(body).None? ==> r.0.None? && r.1 == Some(DecodeError)
    ensures dec.apiReply(body).Some? ==> r.0 == dec.apiReply(body)
    ensures dec.apiReply(body).Some? ==> (r.1.None? <==> dec.apiReply(body).value.errors == [])
    ensures r.0.Some? && r.1.Some? ==> r.1 == Some(Api(NewAPIError(r.0.value, now).value))
  {
    match dec.apiReply(body)
    case None => (None, Some(DecodeError))
    case Some(reply) =>
      var e := NewAPIError(reply, now);
      (Some(reply), if e.Some? then Some(Api(e.value)) else None)
  }

  /** A reply that decodes without errors is no error; a body that does not decode is one. */
  lemma GetJSONTable(body: RawJson, dec: Decoders, now: int)
    requires ReplyIndexable(body, dec)
    ensures dec.apiReply(body).Some? && dec.apiReply(body).value.errors == [] ==> GetJSON(body, dec, now).1.None?
    ensures dec.apiReply(body).None? ==> GetJSON(body, dec, now).1.Some?
  {
  }

  /** A reply as the callers use it: any error from GetJSON ends the call. */
  function ApiReply(body: RawJson, dec: Decoders, now: int): (r: Outcome<JsonAPIReply>)
    requires ReplyIndexable(body, dec)
    ensures r.Ok? <==> dec.apiReply(body).Some? && dec.apiReply(body).value.errors == []
    ensures r.Ok? ==> Some(r.value) == dec.apiReply(body)
    ensures r.Err? ==> Some(r.error) == GetJSON(body, dec, now).1
    ensures dec.apiReply(body).None? ==> r == Err(DecodeError)
    ensures dec.apiReply(body).Some? && dec.apiReply(body).value.errors != [] ==>
              r == Err(Api(NewAPIError(dec.apiReply(body).value, now).value))
  {
    var (reply, err) := GetJSON(body, dec, now);
    if err.Some? then Err(err.value) else Ok(reply.value)
  }
}
