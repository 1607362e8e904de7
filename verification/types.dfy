/** The entities the report handler works on: its configuration, the incoming
    request, the rows the aggregation query returns, the chat API's reply and
    the response plus effect trace the handler produces. */
module Types {
  import opened Wrappers

  /** JavaScript truthiness of an optional string: present and non-empty. */
  predicate Truthy(s: Option<string>) {
    s.Some? && s.value != ""
  }

  /** A query-string parameter: one string, or an array of strings when the
      key is repeated in the URL. */
  datatype Param = One(value: string) | Many(values: seq<string>)

  /** The environment variables the handler reads; an unset variable is None.
      `windowHours` is REPORT_WINDOW_HOURS after numeric conversion: None when
      the conversion gives NaN (the variable is unset or not a number). */
  datatype Config = Config(
    cronSecret: Option<string>,
    windowHours: Option<int>,
    botToken: Option<string>,
    chatId: Option<string>)

  /** The request as far as the handler inspects it: its headers and its
      (possibly missing) parsed query string. */
  datatype Request = Request(headers: map<string, string>, query: Option<map<string, Param>>)

  /** One aggregate row: the first word of a merchant name and the summed
      amount of its successful transactions, in paise. Either column may be
      SQL NULL. */
  datatype Row = Row(name: Option<string>, amount: Option<int>)

  /** An uninterpreted JSON value, passed through to the response untouched. */
  datatype Json = Json(text: string)

  /** What the store returns for the aggregation query: rows, or an error. */
  datatype QueryResult = Rows(rows: seq<Row>) | QueryFailed(message: string)

  /** What the chat API call yields: a decoded reply (its `ok` field read as a
      truth value, its `result` field, and the whole reply object), or an
      error raised by the transport or by decoding the body. */
  datatype Reply =
    | Replied(ok: bool, result: Option<Json>, raw: Json)
    | SendFailed(message: string)

  /** The JSON response bodies:
      `{ok: true, sent: true, telegram}`, `{ok: false, telegram}` and
      `{ok: false, error}`. */
  datatype Body =
    | Delivered(result: Option<Json>)
    | Rejected(reply: Json)
    | Failed(error: string)
  {
    /** The body's `ok` field. */
    predicate Ok() { Delivered? }
  }

  datatype Response = Response(status: int, body: Body)

  /** An attempted side effect: running the aggregation query, or posting a
      message to the chat API. It is recorded even when the attempt fails. */
  datatype Effect = RanQuery | Posted(botToken: string, chatId: string, text: string)

  /** The single response of one invocation, with the effects it attempted, in order. */
  datatype Outcome = Outcome(response: Response, effects: seq<Effect>)
}
