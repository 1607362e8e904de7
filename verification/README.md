# Transaction report endpoint — Dafny model

A model of the request handler in `pages/api/send-report.js`. On each call the
handler checks a shared secret, fixes the report window, reads
per-merchant totals of successful transactions from MySQL, adds them into a
grand total, builds a chat message and posts it to the Telegram Bot API. It
then answers with exactly one JSON response.

The model keeps the handler's own decision and text logic and takes its two
I/O results as plain inputs. These inputs are the rows the aggregation query
returns, or its error, and the decoded Telegram reply, or the error raised
while obtaining it. The handler is a pure function, `Handler.Handle`. It
returns the response together with a trace of the effects it attempted:
running the query, and posting a message with its bot token, chat id and text.
An attempt is recorded even when it fails, for example when the query errors
or the post never reaches the chat API.

Modules:

- `Types`: configuration, request, aggregate rows, replies, responses and effects.
- `Auth`: the shared-secret check. The header credential is `x-secret-token`,
  falling back to `x-secret` when the first is missing or empty. The query
  parameter `secret` is an alternative. An unset or empty `CRON_SECRET`
  disables the check.
- `Window`: `REPORT_WINDOW_HOURS` falls back to 1 when it is zero or not a
  number. The header says "hour" or "hours", and shows the count in decimal.
- `Totals`: the grand total in integer paise, with NULL counted as 0. It is
  independent of the order in which the store returns the rows.
- `Text`: splitting text into lines and joining it back. The message is
  described line by line with these.
- `Report`: the message, built from the header, the rows or the fixed
  "no transactions" sentence, the total line, and sanitised merchant names.
- `Handler`: the try block and the catch-all that maps every thrown error to 500.

Both header names are accepted, but they are not treated alike. A non-empty
`x-secret-token` that does not match hides a correct `x-secret` completely
(`Auth.TokenHeaderShadowsLegacy`). The model follows the code here.

Money is integer paise (hundredths of a rupee). Amount rendering
(`toLocaleString("en-IN")` with two fraction digits) is a formatter
`fmt: int -> string` passed in as a parameter. The one concrete rendering the
code fixes is the literal `"0.00"` for a NULL row amount.

## Model

| member | source | states |
|---|---|---|
| Auth.Authorized | pages/api/send-report.js:25-33 | With no secret configured every request passes. With a secret, a request passes exactly when one of three holds: the token header equals it; the token header is missing or empty and the legacy header equals it; the single-valued `secret` query parameter equals it. |
| Auth.HeaderSecret | pages/api/send-report.js:25-26 | Computes the header credential: `x-secret-token`, falling back to `x-secret`. A non-empty token header is the credential. Otherwise the legacy header is, when present. There is none exactly when the token header is missing or empty and the legacy header is missing. |
| Auth.TokenHeaderShadowsLegacy | pages/api/send-report.js:25-30 | A non-empty, wrong `x-secret-token` makes a correct `x-secret` irrelevant. Without a matching query parameter the request is rejected. |
| Window.EffectiveHours | pages/api/send-report.js:36 | The window is never 0. It is the configured number when that is a non-zero number, and 1 when the value is 0 or not a number. |
| Window.HourNoun | pages/api/send-report.js:60-62 | The header's noun is "hours" exactly when the window exceeds 1, and "hour" otherwise (0, 1 and negative counts). |
| Window.DecimalString | pages/api/send-report.js:60 | Computes the text of `${hours}` for an integer count in canonical decimal: at least one character, all decimal digits except a leading minus sign, which appears only for negative counts, and no leading zeros (a lone `0` for zero, and a non-zero first digit after any minus sign). |
| Window.DecimalRoundTrip | pages/api/send-report.js:60 | The hour count written into the header reads back as exactly that count, sign included. |
| Totals.Sum | pages/api/send-report.js:54-57 | The grand total: non-negative when every row amount is, and 0 when every amount is NULL. |
| Totals.ReduceGrandTotal | pages/api/send-report.js:54-57 | The source's left-to-right reduce starts at 0 and adds each amount, with NULL as 0. It computes the same total as the row-by-row sum. |
| Totals.SumPermutation | pages/api/send-report.js:54-57 | Any two row lists with the same rows in any order have the same grand total. |
| Report.FlattenNewlines | pages/api/send-report.js:75 | The result has the source's length. Each line break becomes a space and every other character is kept in place. |
| Report.SafeName | pages/api/send-report.js:75 | A NULL or empty name prints as "Unknown". Any other name keeps its length, with each line break turned into a space. The result is never empty and has no line break. |
| Report.BuildMessage | pages/api/send-report.js:59-82 | Computes the message text. It opens with the header line and a blank line. With no rows it ends with the fixed sentence. With rows it ends with a line break and the `Total: ₹` line for the grand total. Its full line structure is stated by the two lemmas below. |
| Report.MessageWithoutRows | pages/api/send-report.js:59-65 | With zero rows the message has three lines: the header, a blank line, and "No successful transactions in this window.". No line starts with "Total:". |
| Report.MessageWithRows | pages/api/send-report.js:59-82 | With rows, the message lines are: the header, a blank line, one `name: ₹amount` line per row in input order (NULL amount as `0.00`), a blank line, and `Total: ₹` with the formatted grand total. This assumes the formatter emits no line breaks. |
| Report.TotalLineIgnoresRowOrder | pages/api/send-report.js:54-81 | Reordering the rows leaves the message's last line unchanged. |
| Report.TwoRowExample | pages/api/send-report.js:59-81 | A 2-hour window with rows `Acme`/15000 paise and NULL/NULL gives `✅ Transaction summary (last 2 hours):`, a blank line, `Acme: ₹150.00`, `Unknown: ₹0.00`, a blank line, and `Total: ₹150.00`. |
| Handler.TryBlock | pages/api/send-report.js:23-105 | Computes how the try block ends. A return is a 401, 502 or 200. It throws exactly when an accepted request meets a failed query, a missing chat credential or a failed post. A rejected request attempts nothing. A failed query throws the store's message with only the query attempted. Missing chat credentials throw "BOT_TOKEN or CHAT_ID missing" with only the query attempted. Otherwise the effects are exactly the query and one post of the report message, and a failed post throws the transport's message. |
| Handler.Handle | pages/api/send-report.js:22-110 | Every thrown error becomes 500 with its message, and the status is one of 200, 401, 500 and 502. `ok` is true exactly for 200. 401 means rejected by the secret check: `Unauthorized` with no effect. An accepted call runs the query once, first, and posts at most once, after it. It posts exactly when the query answered and both chat credentials are set, and the posted text is the report message. A failed query gives 500 with the store's message. Missing credentials give 500 "BOT_TOKEN or CHAT_ID missing" with no post. A failed post gives 500. 502 happens exactly when the reply's `ok` is false, and carries the reply verbatim. 200 happens exactly when it is true, and carries `result`. |
| Handler.UnauthorizedIgnoresServices | pages/api/send-report.js:29-33 | A rejected request gets the same outcome whatever the store and the chat API would have answered. |
| Handler.MissingCredentialIgnoresReply | pages/api/send-report.js:85-87 | Without a bot token and chat id the outcome does not depend on the chat API's answer, because nothing is posted. |

## Left out

- Connection-pool construction and reuse through `global.__mysqlPool` (lines 5-20). This is process-wide resource plumbing; the query's answer is an input.
- The SQL text (lines 40-51). MySQL does the join, the `status = 'success'` filter, the grouping and the DECIMAL sums. The grouping is by `name`, which MySQL resolves to the column `m.name` before the select-list alias, so rows may repeat a printed name ("Acme Corp" and "Acme Ltd" both print as `Acme`). The query's result is an input row list of any length, with repeats allowed, in whatever order the store chooses.
- The `fetch` to the Telegram API and the JSON decoding of its body (lines 89-97). The reply is an input: `Replied` carries the truth value of `ok`, `result` and the whole reply. `SendFailed` stands for any error raised on the way, including a network failure, a body that is not JSON, or a `null` body whose `.ok` read throws.
- `toLocaleString("en-IN", …)` digit grouping (lines 71-74, 78-81). This is locale library code; amounts go through the formatter parameter instead.
- Totals.Sum: adds exact integer paise. The source adds binary floating-point numbers, so its rounding on large sums is not modelled.
- Window.EffectiveHours: takes the numeric value of `REPORT_WINDOW_HOURS` as an optional integer. The parsing rules of `Number(...)` and fractional hours such as `1.5` are not modelled.
- The hour count in the header is always written in plain decimal. JavaScript switches to exponent notation from 10^21, which is not modelled.
- The `since` timestamp (line 37). It depends on the wall clock and is never used by the query.
- `console.error` logging (lines 99, 107).
- Repeated request headers and thrown values without a `message` are not modelled. Array-valued query parameters are modelled as `Param.Many`, which never equals the secret.
