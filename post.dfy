/** `post(content, options)` (utils/extenders/Message.js:49-159) up to the start of the
    pagination session: the options merge, the dispatch on the shape of `content`, and
    the reply it makes. */
module Post {
  import opened Js
  import opened Pages
  import Session

  /** The defaults of lines 50-55. */
  const Defaults: map<string, Value> := map["page" := Num(1), "time" := Num(120000), "allowedMentions" := NoPing]

  /** `{ ...defaults, ...options }`; omitted `options` are the empty map. */
  function MergeOptions(options: map<string, Value>): (r: map<string, Value>)
    ensures r.Keys == Defaults.Keys + options.Keys
    // the caller's keys win, `allowedMentions` included
    ensures forall k :: k in options ==> r[k] == options[k]
    // and the defaults fill in the rest
    ensures forall k :: k in Defaults && k !in options ==> r[k] == Defaults[k]
  {
    Defaults + options
  }

  /** The content shapes `post` tells apart. */
  datatype Shape =
    | Text(text: string)                   // a string
    | Embed(props: map<string, Value>)     // an object without `pages`, with `data`
    | Spread(props: map<string, Value>)    // an object without `pages` or `data`
    | Paged(props: map<string, Value>)     // an object with `pages`
    | ArrayValue                           // matches no branch
    | Scalar                               // a boolean or number: matches no branch
    | Nullish                              // `null` or `undefined`: reading `pages` throws

  /** The tests of lines 59, 64, 65 and 76. */
  function ShapeOf(content: Value): Shape {
    match content
    case Str(s) => Text(s)
    case Obj(m) =>
      if Truthy(Get(m, "pages")) then Paged(m)
      else if Truthy(Get(m, "data")) then Embed(m)
      else Spread(m)
    case Arr(_) => ArrayValue
    case Bool(_) => Scalar
    case Num(_) => Scalar
    case Null => Nullish
    case Undefined => Nullish
  }

  /** What `post` does: no reply, one reply, a throw, or the paged payloads handed to a
      session together with the `page` and `time` options. */
  datatype Outcome =
    | NoReply
    | Replied(message: map<string, Value>)
    | Threw(error: JsError)
    | Paginated(sending: seq<Payload>, page: Value, time: Value)

  /** The `allowedMentions` the merged options carry. */
  function Mentions(options: map<string, Value>): Value {
    if "allowedMentions" in options then options["allowedMentions"] else NoPing
  }

  function Post(content: Value, options: map<string, Value>): (r: Outcome)
    // a string: one reply with that content and every merged option
    ensures content.Str? ==>
              && r.Replied?
              && r.message.Keys == {"content"} + Defaults.Keys + options.Keys
              && ("content" !in options ==> r.message["content"] == content)
              && (forall k :: k in options ==> r.message[k] == options[k])
              && (forall k :: k in Defaults && k !in options ==> r.message[k] == Defaults[k])
    // an embed: one reply carrying it, with the merged `allowedMentions` and no other option
    ensures content.Obj? && !Truthy(Get(content.props, "pages")) && Truthy(Get(content.props, "data")) ==>
              r == Replied(map["embeds" := Arr([content]), "allowedMentions" := Mentions(options)])
    // any other object without pages: its own properties, with the merged `allowedMentions`
    ensures content.Obj? && !Truthy(Get(content.props, "pages")) && !Truthy(Get(content.props, "data")) ==>
              && r.Replied?
              && r.message.Keys == content.props.Keys + {"allowedMentions"}
              && r.message["allowedMentions"] == Mentions(options)
              && (forall k :: k in content.props && k != "allowedMentions" ==> r.message[k] == content.props[k])
    // arrays, booleans and numbers: nothing is sent
    ensures content.Arr? || content.Bool? || content.Num? ==> r == NoReply
    ensures content.Null? || content.Undefined? ==> r == Threw(TypeError)
    // pages: the prepared payloads, or the error preparing them throws
    ensures content.Obj? && Truthy(Get(content.props, "pages")) ==>
              && (Paginate(content.props).Err? ==> r == Threw(Paginate(content.props).error))
              && (Paginate(content.props).Ok? ==>
                    && r.Paginated? && r.sending == Paginate(content.props).value
                    && r.page == (if "page" in options then options["page"] else Num(1))
                    && r.time == (if "time" in options then options["time"] else Num(120000)))
    ensures r.Paginated? ==> content.Obj? && Truthy(Get(content.props, "pages"))
  {
    var merged := MergeOptions(options);
    match ShapeOf(content)
    case Text(s) => Replied(map["content" := Str(s)] + merged)
    case Embed(_) => Replied(map["embeds" := Arr([content]), "allowedMentions" := merged["allowedMentions"]])
    case Spread(m) => Replied(m + map["allowedMentions" := merged["allowedMentions"]])
    case Paged(m) =>
      (match Paginate(m)
       case Ok(sending) => Paginated(sending, merged["page"], merged["time"])
       case Err(e) => Threw(e))
    case ArrayValue => NoReply
    case Scalar => NoReply
    case Nullish => Threw(TypeError)
  }

  /** A paginated post with a start page in range opens a consistent session. */
  lemma PaginatedStarts(content: Value, options: map<string, Value>, page: nat)
    requires Post(content, options).Paginated?
    requires Post(content, options).page == Num(page) && 1 <= page <= |Post(content, options).sending|
    ensures Session.Consistent(Session.Start(Post(content, options).sending, page))
  {
    Session.StartConsistent(Post(content, options).sending, page);
  }
}
