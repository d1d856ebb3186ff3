/** Extraction of typed items from a Listing page: comments (kind t1), links
    (kind t3) or both, in page order, with every other kind skipped. */
module Lister {
  import opened Wrappers
  import opened Types

  /** An element of Items(): a comment or a link. */
  datatype Item = CommentItem(comment: Comment) | LinkItem(link: Link)

  /** The children whose kind is in `kinds`, in their original order. */
  function OfKinds(ts: seq<Thing>, kinds: set<string>): (r: seq<Thing>)
    ensures |r| <= |ts|
    ensures forall t :: t in r ==> t in ts && t.kind in kinds
  {
    if ts == [] then []
    else
      var rest := OfKinds(ts[1..], kinds);
      assert forall t :: t in ts[1..] ==> t in ts;
      if ts[0].kind in kinds then [ts[0]] + rest else rest
  }

  /** Every child of one of `kinds` that is a comment or a link decodes as one: the
      source dereferences the result of a failed decode, so a malformed child of a
      kind an operation extracts is outside that operation's domain. Children of
      other kinds are never decoded and may hold anything. */
  predicate Decodable(ts: seq<Thing>, dec: Decoders, kinds: set<string>)
  {
    forall t :: t in ts && t.kind in kinds ==>
      (t.kind == TypeComment ==> dec.comment(t.data).Some?) &&
      (t.kind == TypeLink ==> dec.link(t.data).Some?)
  }

  /** The item a comment or link child decodes to. */
  function DecodeItem(t: Thing, dec: Decoders): Item
    requires t.kind == TypeComment ==> dec.comment(t.data).Some?
    requires t.kind == TypeLink ==> dec.link(t.data).Some?
    requires t.kind in {TypeComment, TypeLink}
  {
    if t.kind == TypeComment then CommentItem(dec.comment(t.data).value)
    else LinkItem(dec.link(t.data).value)
  }

  /** Filtering distributes over concatenation: the filter keeps page order. */
  lemma {:induction false} OfKindsAppend(a: seq<Thing>, b: seq<Thing>, kinds: set<string>)
    ensures OfKinds(a + b, kinds) == OfKinds(a, kinds) + OfKinds(b, kinds)
  {
    if a == [] {
      assert a + b == b;
    } else {
      assert (a + b)[0] == a[0];
      assert (a + b)[1..] == a[1..] + b;
      OfKindsAppend(a[1..], b, kinds);
    }
  }

  /** A child survives the filter iff its kind is one of `kinds`. */
  lemma {:induction false} OfKindsMember(ts: seq<Thing>, kinds: set<string>, t: Thing)
    ensures t in OfKinds(ts, kinds) <==> t in ts && t.kind in kinds
  {
    if ts != [] {
      OfKindsMember(ts[1..], kinds, t);
      assert ts == [ts[0]] + ts[1..];
    }
  }

  /** Filtering for two disjoint kind sets at once keeps as many children as the
      two filters separately. */
  lemma {:induction false} OfKindsCount(ts: seq<Thing>, a: set<string>, b: set<string>)
    requires a !! b
    ensures |OfKinds(ts, a + b)| == |OfKinds(ts, a)| + |OfKinds(ts, b)|
  {
    if ts != [] {
      OfKindsCount(ts[1..], a, b);
    }
  }

  /** Filtering a filtered page is filtering for the common kinds: the comments
      among Items() are exactly Comments(), in the same order, and so for links. */
  lemma {:induction false} OfKindsNested(ts: seq<Thing>, a: set<string>, b: set<string>)
    ensures OfKinds(OfKinds(ts, a), b) == OfKinds(ts, a * b)
  {
    if ts != [] {
      OfKindsNested(ts[1..], a, b);
      if ts[0].kind in a {
        assert ([ts[0]] + OfKinds(ts[1..], a))[1..] == OfKinds(ts[1..], a);
      }
    }
  }

  /** Children of any other kind are dropped without a trace. */
  lemma {:induction false} OfKindsUnknown(ts: seq<Thing>, t: Thing, kinds: set<string>)
    requires t.kind !in kinds
    ensures OfKinds(ts + [t], kinds) == OfKinds(ts, kinds)
  {
    OfKindsAppend(ts, [t], kinds);
    assert [t][1..] == [];
  }

  /** Comments(): the decoded t1 children, in page order. */
  method Comments(l: Listing, dec: Decoders) returns (items: seq<Comment>)
    requires Decodable(l.children, dec, {TypeComment})
    ensures var cs := OfKinds(l.children, {TypeComment});
            |items| == |cs| && forall i :: 0 <= i < |cs| ==> dec.comment(cs[i].data) == Some(items[i])
  {
    var ts := l.children;
    items := [];
    for i := 0 to |ts|
      invariant var cs := OfKinds(ts[..i], {TypeComment});
                |items| == |cs| && forall j :: 0 <= j < |cs| ==> dec.comment(cs[j].data) == Some(items[j])
    {
      assert ts[..i + 1] == ts[..i] + [ts[i]];
      OfKindsAppend(ts[..i], [ts[i]], {TypeComment});
      if ts[i].kind == TypeComment {
        var item := dec.comment(ts[i].data);
        items := items + [item.value];
      }
    }
    assert ts[..|ts|] == ts;
  }

  /** Links(): the decoded t3 children, in page order. */
  method Links(l: Listing, dec: Decoders) returns (items: seq<Link>)
    requires Decodable(l.children, dec, {TypeLink})
    ensures var ls := OfKinds(l.children, {TypeLink});
            |items| == |ls| && forall i :: 0 <= i < |ls| ==> dec.link(ls[i].data) == Some(items[i])
  {
    var ts := l.children;
    items := [];
    for i := 0 to |ts|
      invariant var ls := OfKinds(ts[..i], {TypeLink});
                |items| == |ls| && forall j :: 0 <= j < |ls| ==> dec.link(ls[j].data) == Some(items[j])
    {
      assert ts[..i + 1] == ts[..i] + [ts[i]];
      OfKindsAppend(ts[..i], [ts[i]], {TypeLink});
      if ts[i].kind == TypeLink {
        var item := dec.link(ts[i].data);
        items := items + [item.value];
      }
    }
    assert ts[..|ts|] == ts;
  }

  /** Items(): the decoded t1 and t3 children, in page order. */
  method Items(l: Listing, dec: Decoders) returns (items: seq<Item>)
    requires Decodable(l.children, dec, {TypeComment, TypeLink})
    ensures var ks := OfKinds(l.children, {TypeComment, TypeLink});
            |items| == |ks| && forall i :: 0 <= i < |ks| ==> items[i] == DecodeItem(ks[i], dec)
  {
    var ts := l.children;
    items := [];
    for i := 0 to |ts|
      invariant var ks := OfKinds(ts[..i], {TypeComment, TypeLink});
                |items| == |ks| && forall j :: 0 <= j < |ks| ==> items[j] == DecodeItem(ks[j], dec)
    {
      assert ts[..i + 1] == ts[..i] + [ts[i]];
      OfKindsAppend(ts[..i], [ts[i]], {TypeComment, TypeLink});
      if ts[i].kind == TypeComment {
        var item := dec.comment(ts[i].data);
        items := items + [CommentItem(item.value)];
      } else if ts[i].kind == TypeLink {
        var item := dec.link(ts[i].data);
        items := items + [LinkItem(item.value)];
      }
    }
    assert ts[..|ts|] == ts;
  }

  /** Comments() accepts a comment beside a malformed link, and Links() a link
      beside a malformed comment: each decodes only the kind it extracts. Items()
      decodes both kinds and so refuses either page. */
  lemma OtherKindsNotDecoded(c: Thing, badLink: Thing, l: Thing, badComment: Thing, dec: Decoders)
    requires c.kind == TypeComment && dec.comment(c.data).Some?
    requires badLink.kind == TypeLink && dec.link(badLink.data).None?
    requires l.kind == TypeLink && dec.link(l.data).Some?
    requires badComment.kind == TypeComment && dec.comment(badComment.data).None?
    ensures Decodable([c, badLink], dec, {TypeComment})
    ensures Decodable([l, badComment], dec, {TypeLink})
    ensures !Decodable([c, badLink], dec, {TypeComment, TypeLink})
    ensures !Decodable([l, badComment], dec, {TypeComment, TypeLink})
  {
    assert badLink in [c, badLink];
    assert badComment in [l, badComment];
  }

  /** Items() holds as many elements as Comments() and Links() together. */
  lemma ItemsCount(ts: seq<Thing>)
    ensures |OfKinds(ts, {TypeComment, TypeLink})| == |OfKinds(ts, {TypeComment})| + |OfKinds(ts, {TypeLink})|
  {
    assert {TypeComment, TypeLink} == {TypeComment} + {TypeLink};
    OfKindsCount(ts, {TypeComment}, {TypeLink});
  }

  /** The comments and the links among Items() are Comments() and Links(). */
  lemma ItemsProject(ts: seq<Thing>)
    ensures OfKinds(OfKinds(ts, {TypeComment, TypeLink}), {TypeComment}) == OfKinds(ts, {TypeComment})
    ensures OfKinds(OfKinds(ts, {TypeComment, TypeLink}), {TypeLink}) == OfKinds(ts, {TypeLink})
  {
    OfKindsNested(ts, {TypeComment, TypeLink}, {TypeComment});
    OfKindsNested(ts, {TypeComment, TypeLink}, {TypeLink});
    assert {TypeComment, TypeLink} * {TypeComment} == {TypeComment};
    assert {TypeComment, TypeLink} * {TypeLink} == {TypeLink};
  }

  /** A page of kinds t1, t3, t3 and an unknown kind yields three items, the
      unknown child dropped. */
  lemma MixedPage(c: Thing, l1: Thing, l2: Thing, u: Thing)
    requires c.kind == TypeComment && l1.kind == TypeLink && l2.kind == TypeLink
    requires u.kind !in {TypeComment, TypeLink}
    ensures OfKinds([c, l1, l2, u], {TypeComment, TypeLink}) == [c, l1, l2]
  {
    var kinds := {TypeComment, TypeLink};
    assert [u][1..] == [];
    assert OfKinds([u], kinds) == [];
    assert [l2, u][1..] == [u];
    assert OfKinds([l2, u], kinds) == [l2];
    assert [l1, l2, u][1..] == [l2, u];
    assert OfKinds([l1, l2, u], kinds) == [l1, l2];
    assert [c, l1, l2, u][1..] == [l1, l2, u];
  }
}
