# telegram-deepseek-bot, modelled in Dafny

A personal Telegram assistant, `DeepSeekBot` in bot.py. It lets only
allow-listed users in. It forwards each text message to the DeepSeek
chat-completion API, with the conversation history uploaded so far as extra
system context. It turns every failure of that call into a fixed warning
text, and sends the answer back cut into parts of at most 4000 characters.
Users grow the history by uploading `.txt` files, and `/show_context` shows a
preview of it.

The model has four modules:

- `Strings` (strings.dfy) holds the Python `str` builtins the bot relies on:
  `isspace` with Python's exact 29 whitespace code points, `lstrip()`,
  `rfind(c, 0, end)`, `endswith`, and the decimal rendering `f"{n}"` of a
  count.
- `Splitter` (splitter.dfy) is `split_message`. `SplitMessage` and
  `SplitLoop` are the imperative code: the length check, then the
  `while text:` loop that keeps cutting a prefix. Both are proved against the
  recursive specification `Split`/`SplitRest`, and the lemmas state what the
  parts are.
- `Completion` (completion.dfy) covers the request side and the outcome side
  of `get_deepseek_response`. The message list is built by appends and proved
  equal to `Messages`. The payload has a fixed model name and no streaming.
  The HTTP result is an abstract `ApiOutcome`: either the answer text, or an
  exception described by which of `HTTPError`, `ConnectionError` and
  `Timeout` it is an instance of. The `try/except` ladder picks the first
  clause that matches, in source order.
- `Bot` (bot.py's class) is `class DeepSeekBot`. Its `allowedUsers` is a
  constant and its `conversationHistory` a mutable string. The module also
  holds the pure rules (`IsUserAllowed`, `IsTextDocument`, `Appended`,
  `Preview`) and the handlers `HandleDocument`, `ShowContextCommand`,
  `GetDeepSeekResponse` and `HandleMessage`. Each handler returns the replies
  it would send, in order. Inputs from the outside world are parameters: the
  API's outcome, and the downloaded file text (`None` when download or
  decoding raised).

Two details of the code that are easy to misread:

- The break search window is `text[0:max_length]`, half-open, because `rfind`
  is called with `end = max_length`. So a newline at index `max_length` is
  never used, and a part cut at a separator is strictly shorter than
  `max_length`.
- The preview limit is the fixed 500 of bot.py:129, not a parameter.

## Model

| member | source | states |
|---|---|---|
| `Strings.IsWhitespace` | bot.py:51 | a character is whitespace exactly when it is one of the 29 code points Python's `str.isspace` accepts, listed one by one in `PythonWhitespace` |
| `Strings.LStrip` | bot.py:51 | the result is a suffix of the input; everything dropped is whitespace; the result is empty or starts with non-whitespace; a leading whitespace character is always dropped |
| `Strings.RFind` | bot.py:44-46 | -1 or an index below `end` holding `c`, with no `c` between it and `end` (the rightmost occurrence in the window) |
| `Strings.EndsWith` | bot.py:142 | true exactly when some stem followed by the suffix is the whole string |
| `Strings.DecimalRoundTrip` | bot.py:162 | reading back the rendered character count gives the count |
| `Splitter.BreakIndexChoice` | bot.py:44-48 | the cut is the rightmost `'\n'` of `text[..m]`; else the rightmost `' '` there; else `m` |
| `Splitter.SplitMessage` | bot.py:32-53 | returns `Split(text, m)`; exactly `[text]` when `|text| <= m` (also for `""`); at least one part; every part at most `m` long |
| `Splitter.SplitLoop` | bot.py:37-53 | the `while text:` loop appends exactly `SplitRest(text, m)` and terminates for `m >= 1` |
| `Splitter.SplitRestAdvance` | bot.py:38-51 | each turn keeps "parts so far + what is still to come" fixed and strictly shortens the remainder (termination) |
| `Splitter.SplitPartsBounded` | bot.py:38-51 | no part is longer than `max_length` |
| `Splitter.SplitNonEmpty` | bot.py:34-41 | there is always at least one part |
| `Splitter.SplitFirstPart` | bot.py:44-50 | for a text longer than `m`, the first part is a prefix ending just before the rightmost newline of the window (shorter than `m`); else before the rightmost space; else it is the hard cut of length exactly `m` |
| `Splitter.SplitLaterPartsStartNonWhitespace` | bot.py:50-51 | every part after the first is non-empty and starts with non-whitespace, so only the first part can be empty |
| `Splitter.SplitJoined` | bot.py:50-51 | the parts are consecutive in-order slices of the input, with only whitespace between one part's end and the next part's start (and after the last) |
| `Splitter.SplitKeepsNonWhitespace` | bot.py:50-51 | the parts together hold exactly the input's non-whitespace characters, in order: nothing but whitespace is lost |
| `Completion.ContextMessage` | bot.py:183-188 | the context message holds the whole history, verbatim, between its fixed header and footer |
| `Completion.BuildMessages` | bot.py:176-198 | the appended list equals `Messages(history, userMessage)` |
| `Completion.BuildPayload` | bot.py:200-204 | the payload carries the model `deepseek-chat`, `stream = false` and that message list |
| `Completion.MessagesShape` | bot.py:176-198 | 2 or 3 entries; the base system prompt first; a second system entry containing the history if and only if the history is non-empty; `(user, user_message)` last and the only user entry |
| `Completion.Handler` | bot.py:220-234 | an exception is handled by the first except clause, in source order, whose class it is an instance of |
| `Completion.ClauseText` | bot.py:220-234 | every clause text opens with the warning sign and is at most 51 characters long, so it fits one reply |
| `Completion.ResponseText` | bot.py:218-234 | never raises; a success yields the answer unchanged; an `HTTPError` yields the API-key/balance text; otherwise a `ConnectionError` yields the connection text; otherwise a `Timeout` yields the timeout text; any other exception yields the "unexpected error" text; each failure text starts with the warning sign |
| `Completion.FailureTextIdentifiesClause` | bot.py:220-234 | two failures get the same text if and only if the same clause caught them |
| `Completion.ConnectTimeoutReportsConnectionError` | bot.py:224-230 | clause order: a connect timeout (both a `ConnectionError` and a `Timeout`) is reported as a connection error; a read timeout as a timeout |
| `Bot.IsUserAllowed` | bot.py:55-57 | true if and only if the id occurs somewhere in the allow-list |
| `Bot.OnlyOwnerAllowed` | bot.py:25-27 | with the bot's own allow-list, exactly user 155964417 is allowed |
| `Bot.IsTextDocument` | bot.py:142 | a document is accepted if and only if its MIME type is `text/plain` or its name ends in `.txt` |
| `Bot.Appended` | bot.py:157-160 | the old history is a prefix of the new one; the upload is its suffix; an empty history becomes the upload itself, otherwise exactly `"\n\n"` separates the two; the result is empty only if both are |
| `Bot.HistoryNeverTruncated` | bot.py:157-160 | over any series of uploads the history only grows: the starting history stays a prefix |
| `Bot.Preview` | bot.py:129 | at most 503 characters; the history itself when at most 500 long; otherwise its first 500 characters followed by `"..."` |
| `Bot.ContextReport` | bot.py:130 | the `/show_context` reply is the fixed head, the count in decimal, the fixed tail, then the preview unchanged at the end |
| `Bot.LoadedReport` | bot.py:162 | the upload reply is the fixed head, the new character count in decimal, then the fixed tail |
| `Bot.DeepSeekBot.constructor` | bot.py:19-30 | the allow-list is `[155964417]` and the history starts empty |
| `Bot.DeepSeekBot.AppendHistory` | bot.py:156-162 | the new history is `Appended(old history, text)`; the reported count is its length |
| `Bot.DeepSeekBot.HandleDocument` | bot.py:132-166 | an unknown user gets no reply; a non-text document gets the format error; a failed download gets "loading" then the error text; otherwise the history is appended to and the new length reported; in every failure case the history is unchanged |
| `Bot.DeepSeekBot.ShowContextCommand` | bot.py:119-130 | no reply for an unknown user; the "empty" notice for an empty history; otherwise the length and `Preview` of the history |
| `Bot.DeepSeekBot.GetDeepSeekResponse` | bot.py:168-234 | the request is `(deepseek-chat, Messages(history, message), no stream)`; the returned text is `ResponseText(outcome)` |
| `Bot.DeepSeekBot.HandleMessage` | bot.py:236-258 | an unknown user gets only the refusal and no request is made; otherwise the request is built from the current history and the replies are exactly `Split(response, 4000)`, in order, each at most 4000 long, at least one |
| `Bot.FailureIsOneReply` | bot.py:251-258 | a failed API call is answered with exactly one reply, the failure text |

## Left out

- The Telegram transport. This covers `Updater`, handler registration,
  polling and `run` (bot.py:260-280), the `reply_text` and `send_chat_action`
  calls, and `update`/`context` unpacking. Replies are returned as a list
  instead.
- The `/start`, `/help` and `/upload_history` commands (bot.py:59-117). They
  only send fixed texts after the access check.
- The HTTP call: `requests.post` with its headers, bearer key, URL and
  120-second timeout, plus `raise_for_status` and the JSON indexing
  `result['choices'][0]['message']['content']` (bot.py:170-173, 206-218). Its
  result is the `ApiOutcome` parameter. A non-string `content` is not
  modelled.
- File download and UTF-8 decoding in `handle_document` (bot.py:150-154).
  Their result is the `download` parameter. The logging in its broad
  `except` is not modelled.
- `Bot.DeepSeekBot.HandleDocument`: the success reply (bot.py:162) is sent
  inside the `try`, so in the bot a failure of that send leads to the error
  reply after the history was already appended. Sending cannot fail in the
  model, so "the history is unchanged in every failure case" covers only the
  failures modelled: access, format, and download or decoding.
- A missing `mime_type` or `file_name` (`None` in the Telegram library). The
  model takes both as strings.
- Environment loading, the token and key fields, logging and `print`
  diagnostics (bot.py:10-16, 20-22, 207-217).
- webserver.py: two constant-string health routes and the server start.
- Python strings may hold lone surrogates; Dafny's `char` cannot. The
  uploaded file is decoded strictly as UTF-8 (bot.py:153), so it never holds
  one. The message text and the API answer come from JSON, where a `\ud800`
  escape decodes to a lone surrogate: the model assumes Telegram and the API
  never send one.
- `Splitter.SplitMessage`: requires `max_length >= 1`. With 0 the loop never
  ends on a text holding a non-whitespace character. A negative
  `max_length` would make Python's slices count from the end. The bot only
  ever calls it with 4000.
- `Splitter.SplitFirstPart`: states the newline/space/hard-cut choice for the
  first part. Every later part is the first part of the split of the
  left-stripped remainder (the recursion of `SplitRest`).
