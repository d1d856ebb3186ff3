/** The record shapes the client exchanges with the server: the kind-tagged Thing
    envelope, the Listing page, and the domain records reduced to the fields the
    client's own logic reads. Everything else in a record stays opaque JSON. */
module Types {
  import opened Wrappers

  /** Thing kinds. */
  const TypeComment: string := "t1"
  const TypeAccount: string := "t2"
  const TypeLink: string := "t3"
  const TypeMessage: string := "t4"
  const TypeSubreddit: string := "t5"
  const TypeAward: string := "t6"
  const TypePromo: string := "t8"
  const TypeListing: string := "Listing"

  /** Undecoded JSON text (Go's json.RawMessage). */
  type RawJson = string

  /** The base envelope: `data` is only meaningful once `kind` is known. */
  datatype Thing = Thing(data: RawJson, id: string, kind: string, name: string)

  /** One page of a listing endpoint. */
  datatype Listing = Listing(kind: string, after: string, before: string, children: seq<Thing>, modhash: string)

  /** A posted link; only its fullname is read by the client. */
  datatype Link = Link(name: string, fields: RawJson)

  /** A comment; the client never looks inside it. */
  datatype Comment = Comment(fields: RawJson)

  /** An account; only its modhash is read by the client. */
  datatype Account = Account(modhash: string, fields: RawJson)

  /** The reply to a posted comment; opaque to the client. */
  datatype CommentResult = CommentResult(fields: RawJson)

  /** The `json` member of every JSON API reply. `errors` is a list of
      `[id, description, field]` string lists; `ratelimit` is float seconds. */
  datatype JsonAPIReply = JsonAPIReply(data: RawJson, errors: seq<seq<string>>, id: string, kind: string, name: string, ratelimit: real)

  /** The `data` of a login reply. */
  datatype LoginReply = LoginReply(needHttps: bool, modhash: string, cookie: string)

  /** encoding/json as a family of partial decoders, one per target shape:
      `None` is a decode error. */
  datatype Decoders = Decoders(
    apiReply: RawJson -> Option<JsonAPIReply>,
    listing: RawJson -> Option<Listing>,
    thing: RawJson -> Option<Thing>,
    account: RawJson -> Option<Account>,
    link: RawJson -> Option<Link>,
    comment: RawJson -> Option<Comment>,
    loginReply: RawJson -> Option<LoginReply>,
    commentThings: RawJson -> Option<seq<Thing>>,
    commentResult: RawJson -> Option<CommentResult>)
}
