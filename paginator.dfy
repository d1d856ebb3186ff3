/** The listing paginator: one cursor (the fullname of a boundary link of the
    last page), a page-size limit, and the query each request is built from. */
module Pagination {
  import opened Wrappers
  import opened Strconv
  import opened Types
  import opened ApiError
  import opened Util
  import opened Sessions

  /** The largest page the server returns. */
  const MaxLimit: int := 100

  /** A requested page size brought into [0, MaxLimit]. */
  function ClampLimit(l: int): (r: Int)
    ensures 0 <= r <= MaxLimit
    ensures 0 <= l <= MaxLimit ==> r == l
    ensures l < 0 ==> r == 0
    ensures l > MaxLimit ==> r == MaxLimit
  {
    if l < 0 then 0 else if l > MaxLimit then MaxLimit else l
  }

  /** Clamping a clamped limit changes nothing. */
  lemma ClampLimitIdempotent(l: int)
    ensures ClampLimit(ClampLimit(l)) == ClampLimit(l)
  {
  }

  /** -5 and 0 both give 0, 500 gives 100. */
  lemma ClampLimitTable()
    ensures ClampLimit(-5) == 0 && ClampLimit(0) == 0 && ClampLimit(500) == 100
  {
  }

  /** The query parameters of a page request: the cursor as `after` or `before`
      when it is set, `count` and `limit` in decimal when positive, nothing else. */
  function Query(name: string, count: Int, limit: Int, after: bool): (v: Params)
    ensures ("after" in v) <==> after && name != ""
    ensures ("before" in v) <==> !after && name != ""
    ensures "after" in v ==> v["after"] == name
    ensures "before" in v ==> v["before"] == name
    ensures ("count" in v) <==> count > 0
    ensures ("limit" in v) <==> limit > 0
    ensures v.Keys <= {"after", "before", "count", "limit"}
  {
    var v := if name == "" then map[] else if after then map["after" := name] else map["before" := name];
    var v := if count > 0 then v["count" := FormatInt(count)] else v;
    if limit > 0 then v["limit" := FormatInt(limit)] else v
  }

  /** The server reads back the very count and limit the paginator holds. */
  lemma QueryNumbersReadBack(name: string, count: Int, limit: Int, after: bool)
    ensures var v := Query(name, count, limit, after);
            ("count" in v ==> Atoi(v["count"]) == count) && ("limit" in v ==> Atoi(v["limit"]) == limit)
  {
    AtoiFormatInt(count);
    AtoiFormatInt(limit);
  }

  /** Every child of a page decoded as a Link, in order and whatever its kind;
      one child that does not decode fails the whole page. */
  function DecodeLinks(cs: seq<Thing>, dec: Decoders): (r: Outcome<seq<Link>>)
    ensures r.Ok? <==> forall i :: 0 <= i < |cs| ==> dec.link(cs[i].data).Some?
    ensures r.Ok? ==> |r.value| == |cs| && forall i :: 0 <= i < |cs| ==> dec.link(cs[i].data) == Some(r.value[i])
    ensures r.Err? ==> r.error == DecodeError
  {
    if cs == [] then Ok([])
    else
      match dec.link(cs[0].data)
      case None => Err(DecodeError)
      case Some(l) =>
        match DecodeLinks(cs[1..], dec)
        case Err(e) => Err(e)
        case Ok(ls) => Ok([l] + ls)
  }

  /** The links of a page response: the transport error, a decode error for a body
      that is not a listing, or the page's children decoded as links. The listing's
      own kind is not checked, and neither is the HTTP status. */
  function Page(resp: Outcome<Response>, dec: Decoders): Outcome<seq<Link>>
  {
    match resp
    case Err(e) => Err(e)
    case Ok(r) =>
      match dec.listing(r.body)
      case None => Err(DecodeError)
      case Some(l) => DecodeLinks(l.children, dec)
  }

  /** A successful page has exactly one link per child of the listing. */
  lemma PageLength(resp: Outcome<Response>, dec: Decoders)
    requires Page(resp, dec).Ok?
    ensures resp.Ok? && dec.listing(resp.value.body).Some?
    ensures |Page(resp, dec).value| == |dec.listing(resp.value.body).value.children|
  {
  }

  /** The cursor after a page: the last link's fullname going forward, the first
      link's going backward, and the old cursor after an error or an empty page. */
  function Advance(name: string, r: Outcome<seq<Link>>, forward: bool): string
  {
    if r.Ok? && |r.value| > 0 then
      (if forward then r.value[|r.value| - 1].name else r.value[0].name)
    else name
  }

  /** An error or an empty page leaves the cursor where it was. */
  lemma AdvanceKeepsCursor(name: string, r: Outcome<seq<Link>>, forward: bool)
    requires r.Err? || r.value == []
    ensures Advance(name, r, forward) == name
  {
  }

  /** After a forward page the next forward request starts after its last link. */
  lemma NextResumesAfterLast(name: string, links: seq<Link>, count: Int, limit: Int)
    requires links != [] && links[|links| - 1].name != ""
    ensures var v := Query(Advance(name, Ok(links), true), count, limit, true);
            "after" in v && v["after"] == links[|links| - 1].name && "before" !in v
  {
  }

  /** After a backward page the next backward request ends before its first link. */
  lemma PreviousResumesBeforeFirst(name: string, links: seq<Link>, count: Int, limit: Int)
    requires links != [] && links[0].name != ""
    ensures var v := Query(Advance(name, Ok(links), false), count, limit, false);
            "before" in v && v["before"] == links[0].name && "after" !in v
  {
  }

  /** There is one cursor for both directions: going back after a forward page asks
      for what precedes that page's LAST link. */
  lemma SharedCursor(name: string, links: seq<Link>, count: Int, limit: Int)
    requires links != [] && links[|links| - 1].name != ""
    ensures var v := Query(Advance(name, Ok(links), true), count, limit, false);
            "before" in v && v["before"] == links[|links| - 1].name
  {
  }

  class Paginator {
    const s: Session
    const url: string
    var name: string   // fullname of the reference link
    var count: Int     // item offset; never set
    var limit: Int     // page size; 0 lets the server choose

    /** Session.Listing: a fresh paginator over a subreddit's listing. */
    constructor (s: Session, sub: string)
      ensures this.s == s && url == BuildURL(ListingPath(sub), true)
      ensures name == "" && count == 0 && limit == 0
    {
      this.s := s;
      url := BuildURL(ListingPath(sub), true);
      name := "";
      count := 0;
      limit := 0;
    }

    /** SetLimit: store the page size clamped into [0, MaxLimit]. */
    method SetLimit(l: Int)
      modifies this`limit
      ensures limit == ClampLimit(l)
    {
      var l := l;
      if l < 0 {
        l := 0;
      }
      if l > MaxLimit {
        l := MaxLimit;
      }
      limit := l;
    }

    /** The query parameters of the next request in one direction. */
    method Values(after: bool) returns (v: Params)
      ensures v == Query(name, count, limit, after)
    {
      v := map[];
      if name != "" {
        if after {
          v := v["after" := name];
        } else {
          v := v["before" := name];
        }
      }
      if count > 0 {
        v := v["count" := FormatInt(count)];
      }
      if limit > 0 {
        v := v["limit" := FormatInt(limit)];
      }
    }

    /** The response to the page request in one direction from the current state. */
    function Fetch(after: bool, env: Env): Outcome<Response>
      reads this, s
    {
      env.client(GetRequest(url, Some(Query(name, count, limit, after)), s.HttpHeaders(), env.encode))
    }

    /** list: request a page and decode every child as a link. */
    method List(after: bool, env: Env) returns (r: Outcome<seq<Link>>)
      ensures r == Page(Fetch(after, env), env.json)
    {
      var v := Values(after);
      var sent, resp := s.Get(url, Some(v), env);
      assert sent == GetRequest(url, Some(v), s.HttpHeaders(), env.encode);
      assert resp == Fetch(after, env);
      if resp.Err? {
        return Err(resp.error);
      }
      var listing := env.json.listing(resp.value.body);
      if listing.None? {
        return Err(DecodeError);
      }
      // the listing's kind is not checked
      var children := listing.value.children;
      var links: seq<Link> := [];
      for i := 0 to |children|
        invariant |links| == i
        invariant forall j :: 0 <= j < i ==> env.json.link(children[j].data) == Some(links[j])
      {
        var link := env.json.link(children[i].data);
        if link.None? {
          assert DecodeLinks(children, env.json).Err?;
          assert Page(Fetch(after, env), env.json) == Err(DecodeError);
          return Err(DecodeError);
        }
        links := links + [link.value];
      }
      ghost var page := DecodeLinks(children, env.json);
      assert page.Ok? && |page.value| == |links|;
      assert forall j :: 0 <= j < |links| ==> page.value[j] == links[j];
      assert page.value == links;
      assert Page(Fetch(after, env), env.json) == page;
      r := Ok(links);
    }

    /** Next: the page after the cursor; the cursor moves to its last link. */
    method Next(env: Env) returns (r: Outcome<seq<Link>>)
      modifies this`name
      ensures r == Page(old(Fetch(true, env)), env.json)
      ensures name == Advance(old(name), r, true)
    {
      r := List(true, env);
      if r.Err? {
        return;
      }
      if |r.value| > 0 {
        name := r.value[|r.value| - 1].name;
      }
    }

    /** Previous: the page before the cursor; the cursor moves to its first link. */
    method Previous(env: Env) returns (r: Outcome<seq<Link>>)
      modifies this`name
      ensures r == Page(old(Fetch(false, env)), env.json)
      ensures name == Advance(old(name), r, false)
    {
      r := List(false, env);
      if r.Err? {
        return;
      }
      if |r.value| > 0 {
        name := r.value[0].name;
      }
    }
  }
}
