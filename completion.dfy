/**
 * The request side and the outcome side of `DeepSeekBot.get_deepseek_response`:
 * the role-tagged message list and payload sent to the chat-completion API,
 * and the `try/except` ladder that turns whatever came back into the text the
 * bot replies with. The HTTP call itself is not modelled: its result is an
 * `ApiOutcome` value.
 */
module Completion {

  datatype Role = System | User

  /** One `{"role": ..., "content": ...}` entry of the `messages` list. */
  datatype ChatMessage = ChatMessage(role: Role, content: string)

  /** The JSON body `{"model": ..., "messages": ..., "stream": ...}`. */
  datatype Payload = Payload(model: string, messages: seq<ChatMessage>, stream: bool)

  const ModelName: string := "deepseek-chat"

  const BaseSystemPrompt: string :=
    "Ты полезный AI-ассистент. Отвечай дружелюбно и профессионально."

  /** The text around the history in the context message (an f-string with
      the history in the middle, opening and closing with a newline). */
  const ContextHeader: string :=
    "\nУчти этот контекст из предыдущих диалогов с пользователем:\n"
  const ContextFooter: string :=
    "\n\nОтвечай в схожем стиле и учитывай историю общения.\n"

  /** The system message that carries the uploaded history. */
  function ContextMessage(history: string): (s: string)
    ensures |s| == |ContextHeader| + |history| + |ContextFooter|
    ensures s[..|ContextHeader|] == ContextHeader
    ensures s[|ContextHeader|..|ContextHeader| + |history|] == history
    ensures s[|s| - |ContextFooter|..] == ContextFooter
  {
    ContextHeader + history + ContextFooter
  }

  /** The message list as a value: base prompt, the context message when
      there is a history, then the user's message. */
  function Messages(history: string, userMessage: string): seq<ChatMessage> {
    [ChatMessage(System, BaseSystemPrompt)]
    + (if history != "" then [ChatMessage(System, ContextMessage(history))] else [])
    + [ChatMessage(User, userMessage)]
  }

  /** The list is built by appends: the base prompt first, the context
      message only for a non-empty history, the user's message last. */
  method BuildMessages(history: string, userMessage: string) returns (messages: seq<ChatMessage>)
    ensures messages == Messages(history, userMessage)
  {
    messages := [ChatMessage(System, BaseSystemPrompt)];
    if history != "" {
      messages := messages + [ChatMessage(System, ContextMessage(history))];
    }
    messages := messages + [ChatMessage(User, userMessage)];
  }

  /** The payload: a fixed model name, the messages, no streaming. */
  method BuildPayload(history: string, userMessage: string) returns (payload: Payload)
    ensures payload.model == ModelName && !payload.stream
    ensures payload.messages == Messages(history, userMessage)
  {
    var messages := BuildMessages(history, userMessage);
    payload := Payload(ModelName, messages, false);
  }

  /** The shape of every request: two or three entries; the base system
      prompt first; a second system entry holding the history exactly when
      the history is non-empty; the user's own message last and the only
      entry with the user role. */
  lemma MessagesShape(history: string, userMessage: string)
    ensures var m := Messages(history, userMessage);
      && |m| == (if history == "" then 2 else 3)
      && m[0] == ChatMessage(System, BaseSystemPrompt)
      && m[|m| - 1] == ChatMessage(User, userMessage)
      && (forall i :: 0 <= i < |m| - 1 ==> m[i].role == System)
      && (history != "" <==> |m| == 3)
      && (history != "" ==>
            var c := m[1].content;
            c[|ContextHeader|..|ContextHeader| + |history|] == history)
  {
  }

  // ------------------------------------------------------------- outcomes

  /** An exception raised by `requests.post`, `raise_for_status` or the JSON
      indexing, described by the except-clause classes it is an instance of.
      In `requests`, `ConnectTimeout` is both a `ConnectionError` and a
      `Timeout`. */
  datatype Raised = Raised(isHttpError: bool, isConnectionError: bool, isTimeout: bool)

  const HttpErrorRaised: Raised := Raised(true, false, false)
  const ConnectionErrorRaised: Raised := Raised(false, true, false)
  const ConnectTimeoutRaised: Raised := Raised(false, true, true)
  const ReadTimeoutRaised: Raised := Raised(false, false, true)
  /** Anything else: a malformed JSON body, a missing `choices` key, ... */
  const OtherRaised: Raised := Raised(false, false, false)

  /** What the API call produced: the content of the first choice, or an
      exception. */
  datatype ApiOutcome = Answered(content: string) | Failed(error: Raised)

  /** The except clauses of the ladder, in source order. */
  datatype Clause = HttpClause | ConnectionClause | TimeoutClause | CatchAll

  /** Python tries the except clauses top to bottom and the first one whose
      class the exception is an instance of handles it. */
  function Handler(e: Raised): (c: Clause)
    ensures c == HttpClause <==> e.isHttpError
    ensures c == ConnectionClause <==> !e.isHttpError && e.isConnectionError
    ensures c == TimeoutClause <==> !e.isHttpError && !e.isConnectionError && e.isTimeout
    ensures c == CatchAll <==> !e.isHttpError && !e.isConnectionError && !e.isTimeout
  {
    if e.isHttpError then HttpClause
    else if e.isConnectionError then ConnectionClause
    else if e.isTimeout then TimeoutClause
    else CatchAll
  }

  /** Every failure text opens with a warning sign and a space. */
  const WarningSign: string := "⚠️ "

  const ApiErrorText: string := WarningSign + "Ошибка API: Проверь API ключ и баланс"
  const ConnectionErrorText: string := WarningSign + "Ошибка соединения с API. Проверь интернет."
  const TimeoutText: string := WarningSign + "Превышено время ожидания ответа от API."
  const UnexpectedErrorText: string := WarningSign + "Произошла непредвиденная ошибка. Попробуй позже."

  /** The fixed text each except clause returns. */
  function ClauseText(c: Clause): (t: string)
    ensures |t| > |WarningSign| && t[..|WarningSign|] == WarningSign
    ensures |t| <= 51
  {
    match c
    case HttpClause => ApiErrorText
    case ConnectionClause => ConnectionErrorText
    case TimeoutClause => TimeoutText
    case CatchAll => UnexpectedErrorText
  }

  /** The value `get_deepseek_response` returns: never an exception; the
      answer unchanged on success, otherwise the warning text of the clause
      that caught the exception. */
  function ResponseText(outcome: ApiOutcome): (r: string)
    ensures outcome.Answered? ==> r == outcome.content
    ensures outcome.Failed? ==>
      r in {ApiErrorText, ConnectionErrorText, TimeoutText, UnexpectedErrorText}
    ensures outcome.Failed? ==> |r| > |WarningSign| && r[..|WarningSign|] == WarningSign
    ensures outcome.Failed? && outcome.error.isHttpError ==> r == ApiErrorText
    ensures outcome.Failed? && !outcome.error.isHttpError && outcome.error.isConnectionError ==>
      r == ConnectionErrorText
    ensures (outcome.Failed? && !outcome.error.isHttpError && !outcome.error.isConnectionError &&
             outcome.error.isTimeout) ==> r == TimeoutText
    ensures (outcome.Failed? && !outcome.error.isHttpError && !outcome.error.isConnectionError &&
             !outcome.error.isTimeout) ==> r == UnexpectedErrorText
  {
    match outcome
    case Answered(content) => content
    case Failed(e) => ClauseText(Handler(e))
  }

  /** The four failure texts differ, so the reply tells which clause caught
      the failure. */
  lemma FailureTextIdentifiesClause(e1: Raised, e2: Raised)
    ensures ResponseText(Failed(e1)) == ResponseText(Failed(e2)) <==> Handler(e1) == Handler(e2)
  {
    // the four texts have four different lengths: 40, 45, 42 and 51
    assert |ApiErrorText| == 40 && |ConnectionErrorText| == 45;
    assert |TimeoutText| == 42 && |UnexpectedErrorText| == 51;
  }

  /** Clause order matters: a connect timeout is reported as a connection
      error, because that clause comes before the timeout clause; a read
      timeout is reported as a timeout. */
  lemma ConnectTimeoutReportsConnectionError()
    ensures ResponseText(Failed(ConnectTimeoutRaised)) == ConnectionErrorText
    ensures ResponseText(Failed(ReadTimeoutRaised)) == TimeoutText
  {
  }
}
