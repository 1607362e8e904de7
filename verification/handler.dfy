/** The request handler (pages/api/send-report.js, lines 22-110) as a pure
    function. The store's answer to the aggregation query and the chat API's
    answer to the post are inputs; the handler returns its one response and
    the trace of effects it attempted. */
module Handler {
  import opened Types
  import Auth
  import Window
  import Report

  const UnauthorizedError := "Unauthorized"
  const MissingCredentialError := "BOT_TOKEN or CHAT_ID missing"

  /** How the try block ends: by returning a response or by throwing an
      error with a message, in both cases after the effects listed. */
  datatype Exit =
    | Return(response: Response, effects: seq<Effect>)
    | Throw(message: string, effects: seq<Effect>)

  /** The message the handler posts for this configuration and these rows. */
  function MessageFor(cfg: Config, rows: seq<Row>, fmt: int -> string): string {
    Report.BuildMessage(Window.EffectiveHours(cfg.windowHours), rows, fmt)
  }

  /** The try block: secret check, query, message, credentials, post. */
  function TryBlock(cfg: Config, req: Request, db: QueryResult, reply: Reply, fmt: int -> string): (exit: Exit)
    // a return is a 401, a 502 or a 200; every other end is a throw
    ensures exit.Return? ==> exit.response.status in {200, 401, 502}
    // something throws exactly when an accepted request meets a failed query,
    // a missing chat credential or a failed post
    ensures exit.Throw? <==>
              && Auth.Authorized(cfg.cronSecret, req)
              && (db.QueryFailed? || !Truthy(cfg.botToken) || !Truthy(cfg.chatId) || reply.SendFailed?)
    // no effect before the secret check passes
    ensures !Auth.Authorized(cfg.cronSecret, req) ==> exit.effects == []
    // a failed query throws the store's error right after the query, before any post
    ensures Auth.Authorized(cfg.cronSecret, req) && db.QueryFailed? ==>
              exit == Throw(db.message, [RanQuery])
    // missing chat credentials throw after the query, before any post
    ensures Auth.Authorized(cfg.cronSecret, req) && db.Rows? && !(Truthy(cfg.botToken) && Truthy(cfg.chatId)) ==>
              exit == Throw(MissingCredentialError, [RanQuery])
    // otherwise the query is followed by exactly one post of the report message
    ensures ReadyToPost(cfg, req, db) ==>
              exit.effects == [RanQuery, Posted(cfg.botToken.value, cfg.chatId.value, MessageFor(cfg, db.rows, fmt))]
    // and a failed post throws the transport's error
    ensures ReadyToPost(cfg, req, db) && reply.SendFailed? ==>
              exit.Throw? && exit.message == reply.message
  {
    if !Auth.Authorized(cfg.cronSecret, req) then
      Return(Response(401, Failed(UnauthorizedError)), [])
    else
      match db
      case QueryFailed(m) => Throw(m, [RanQuery])
      case Rows(rows) =>
        var message := MessageFor(cfg, rows, fmt);
        if !Truthy(cfg.botToken) || !Truthy(cfg.chatId) then
          Throw(MissingCredentialError, [RanQuery])
        else
          var effects := [RanQuery, Posted(cfg.botToken.value, cfg.chatId.value, message)];
          match reply
          case SendFailed(m) => Throw(m, effects)
          case Replied(ok, result, raw) =>
            if !ok then Return(Response(502, Rejected(raw)), effects)
            else Return(Response(200, Delivered(result)), effects)
  }

  /** The request reached the post: it was authorised, the query answered,
      and both chat credentials are set. */
  predicate ReadyToPost(cfg: Config, req: Request, db: QueryResult) {
    && Auth.Authorized(cfg.cronSecret, req)
    && db.Rows?
    && Truthy(cfg.botToken)
    && Truthy(cfg.chatId)
  }

  /** One invocation: the try block, with every thrown error turned into a
      500 response carrying the error's message. */
  function Handle(cfg: Config, req: Request, db: QueryResult, reply: Reply, fmt: int -> string): (o: Outcome)
    // every thrown error becomes a 500 carrying its message
    ensures TryBlock(cfg, req, db, reply, fmt).Throw? ==>
              && o.response == Response(500, Failed(TryBlock(cfg, req, db, reply, fmt).message))
              && o.effects == TryBlock(cfg, req, db, reply, fmt).effects
    // the status is one of four, and the body's ok field is true exactly for 200
    ensures o.response.status in {200, 401, 500, 502}
    ensures o.response.body.Ok() <==> o.response.status == 200
    // rejected callers get 401 before any effect
    ensures o.response.status == 401 <==> !Auth.Authorized(cfg.cronSecret, req)
    ensures !Auth.Authorized(cfg.cronSecret, req) ==>
              o == Outcome(Response(401, Failed(UnauthorizedError)), [])
    // an accepted caller causes exactly one query, first, and at most one post, after it
    ensures Auth.Authorized(cfg.cronSecret, req) ==>
              1 <= |o.effects| <= 2 && o.effects[0] == RanQuery
    ensures |o.effects| == 2 <==> ReadyToPost(cfg, req, db)
    ensures ReadyToPost(cfg, req, db) ==>
              o.effects[1] == Posted(cfg.botToken.value, cfg.chatId.value, MessageFor(cfg, db.rows, fmt))
    // a failed query is a 500 with the store's message
    ensures Auth.Authorized(cfg.cronSecret, req) && db.QueryFailed? ==>
              o.response == Response(500, Failed(db.message))
    // missing chat credentials: 500 and no post
    ensures Auth.Authorized(cfg.cronSecret, req) && db.Rows? && !(Truthy(cfg.botToken) && Truthy(cfg.chatId)) ==>
              o == Outcome(Response(500, Failed(MissingCredentialError)), [RanQuery])
    // a failed post is a 500 with the transport's message
    ensures ReadyToPost(cfg, req, db) && reply.SendFailed? ==>
              o.response == Response(500, Failed(reply.message))
    // the chat API declining: 502 with its reply verbatim
    ensures o.response.status == 502 <==> ReadyToPost(cfg, req, db) && reply.Replied? && !reply.ok
    ensures o.response.status == 502 ==> o.response.body == Rejected(reply.raw)
    // the chat API accepting: 200 with its result
    ensures o.response.status == 200 <==> ReadyToPost(cfg, req, db) && reply.Replied? && reply.ok
    ensures o.response.status == 200 ==> o.response.body == Delivered(reply.result)
  {
    match TryBlock(cfg, req, db, reply, fmt)
    case Return(response, effects) => Outcome(response, effects)
    case Throw(message, effects) => Outcome(Response(500, Failed(message)), effects)
  }

  /** A rejected caller learns nothing from the store or the chat API: the
      outcome is the same whatever they would have answered. */
  lemma UnauthorizedIgnoresServices(cfg: Config, req: Request, db1: QueryResult, db2: QueryResult,
                                    reply1: Reply, reply2: Reply, fmt: int -> string)
    requires !Auth.Authorized(cfg.cronSecret, req)
    ensures Handle(cfg, req, db1, reply1, fmt) == Handle(cfg, req, db2, reply2, fmt)
  {
  }

  /** Without the chat credentials nothing is posted, so the chat API's
      answer cannot matter. */
  lemma MissingCredentialIgnoresReply(cfg: Config, req: Request, db: QueryResult,
                                      reply1: Reply, reply2: Reply, fmt: int -> string)
    requires !(Truthy(cfg.botToken) && Truthy(cfg.chatId))
    ensures Handle(cfg, req, db, reply1, fmt) == Handle(cfg, req, db, reply2, fmt)
  {
  }
}
