/**
 * The `DeepSeekBot` class of bot.py: the allow-list, the conversation
 * history it accumulates from uploaded `.txt` files, and the handlers that
 * turn one inbound event into the replies sent back. Telegram itself is not
 * modelled: a handler returns the replies it would send, in order, and the
 * inputs that come from the network or the file system are parameters.
 */
module Bot {
  import opened Strings
  import opened Splitter
  import opened Completion

  datatype Option<T> = None | Some(value: T)

  /** The one user on the hard-coded allow-list. */
  const OwnerId: int := 155964417

  /** How much of the history `/show_context` shows. */
  const PreviewLimit: nat := 500

  const HistorySeparator: string := "\n\n"

  const AccessDeniedText: string := "🚫 У вас нет доступа к этому боту."
  const EmptyContextText: string :=
    "📝 Контекст пока пуст. Используй /upload_history чтобы загрузить историю."
  const WrongFormatText: string := "❌ Пожалуйста, отправьте текстовый файл (.txt)"
  const LoadingText: string := "📥 Загружаю и анализирую историю..."
  const LoadFailedText: string := "❌ Ошибка при обработке файла."

  const ContextReportHead: string := "📚 Текущий контекст ("
  const ContextReportTail: string := " символов):\n\n"

  /** The `/show_context` report: the character count in decimal, then the
      preview, unchanged, at the end. */
  function ContextReport(count: nat, preview: string): (r: string)
    ensures var n := |ContextReportHead| + |DecimalString(count)|;
      && |r| == n + |ContextReportTail| + |preview|
      && r[..|ContextReportHead|] == ContextReportHead
      && r[|ContextReportHead|..n] == DecimalString(count)
      && r[n..n + |ContextReportTail|] == ContextReportTail
      && r[n + |ContextReportTail|..] == preview
  {
    ContextReportHead + DecimalString(count) + ContextReportTail + preview
  }

  const LoadedReportHead: string := "✅ История успешно загружена! Теперь контекст содержит "
  const LoadedReportTail: string := " символов."

  /** The reply after a successful upload, with the new character count in
      decimal between a fixed head and tail. */
  function LoadedReport(count: nat): (r: string)
    ensures |r| == |LoadedReportHead| + |DecimalString(count)| + |LoadedReportTail|
    ensures r[..|LoadedReportHead|] == LoadedReportHead
    ensures r[|LoadedReportHead|..|r| - |LoadedReportTail|] == DecimalString(count)
    ensures r[|r| - |LoadedReportTail|..] == LoadedReportTail
  {
    LoadedReportHead + DecimalString(count) + LoadedReportTail
  }

  // ------------------------------------------------------- pure rules

  /** `user_id in self.allowed_users`. */
  function IsUserAllowed(allowedUsers: seq<int>, userId: int): (allowed: bool)
    ensures allowed <==> exists i :: 0 <= i < |allowedUsers| && allowedUsers[i] == userId
  {
    userId in allowedUsers
  }

  /** A document is refused only when its MIME type is not `text/plain`
      and its name does not end in `.txt`. */
  function IsTextDocument(mimeType: string, fileName: string): (accepted: bool)
    ensures accepted <==> mimeType == "text/plain" || exists stem :: stem + ".txt" == fileName
  {
    !(mimeType != "text/plain" && !EndsWith(fileName, ".txt"))
  }

  /** The history after one upload: the text itself into an empty history,
      otherwise after a blank line. */
  function Appended(history: string, text: string): (r: string)
    ensures history <= r
    ensures |r| >= |text| && r[|r| - |text|..] == text
    ensures history == "" ==> r == text
    ensures history != "" ==>
      |r| == |history| + |HistorySeparator| + |text| &&
      r[|history|..|history| + |HistorySeparator|] == HistorySeparator
    ensures r == "" <==> history == "" && text == ""
  {
    if history != "" then history + HistorySeparator + text else text
  }

  /** The history as `/show_context` shows it: the first 500 characters and
      "..." when it is longer than that, the whole of it otherwise. */
  function Preview(history: string): (p: string)
    ensures |p| <= PreviewLimit + 3
    ensures |history| <= PreviewLimit ==> p == history
    ensures |history| > PreviewLimit ==>
      |p| == PreviewLimit + 3 && p[..PreviewLimit] == history[..PreviewLimit] &&
      p[PreviewLimit..] == "..."
  {
    if |history| > PreviewLimit then history[..PreviewLimit] + "..." else history
  }

  // ---------------------------------------------------------- the bot

  class DeepSeekBot {
    const allowedUsers: seq<int>
    var conversationHistory: string

    constructor ()
      ensures allowedUsers == [OwnerId]
      ensures conversationHistory == ""
    {
      allowedUsers := [OwnerId];
      conversationHistory := "";
    }

    /** The upload step of `handle_document`: append the file's text and
        report the new length. */
    method AppendHistory(text: string) returns (count: nat)
      modifies this
      ensures conversationHistory == Appended(old(conversationHistory), text)
      ensures count == |conversationHistory|
    {
      if conversationHistory != "" {
        conversationHistory := conversationHistory + HistorySeparator + text;
      } else {
        conversationHistory := text;
      }
      count := |conversationHistory|;
    }

    /** `handle_document`. `download` is the text of the file as read from
        disk, or `None` when fetching or UTF-8 decoding it raised. */
    method HandleDocument(userId: int, mimeType: string, fileName: string, download: Option<string>)
      returns (replies: seq<string>)
      modifies this
      ensures !IsUserAllowed(allowedUsers, userId) ==>
        replies == [] && conversationHistory == old(conversationHistory)
      ensures IsUserAllowed(allowedUsers, userId) && !IsTextDocument(mimeType, fileName) ==>
        replies == [WrongFormatText] && conversationHistory == old(conversationHistory)
      ensures IsUserAllowed(allowedUsers, userId) && IsTextDocument(mimeType, fileName) &&
              download.None? ==>
        replies == [LoadingText, LoadFailedText] && conversationHistory == old(conversationHistory)
      ensures IsUserAllowed(allowedUsers, userId) && IsTextDocument(mimeType, fileName) &&
              download.Some? ==>
        conversationHistory == Appended(old(conversationHistory), download.value) &&
        replies == [LoadingText, LoadedReport(|conversationHistory|)]
    {
      if !IsUserAllowed(allowedUsers, userId) {
        return [];
      }
      if !IsTextDocument(mimeType, fileName) {
        return [WrongFormatText];
      }
      replies := [LoadingText];
      match download
      case None =>
        replies := replies + [LoadFailedText];
      case Some(text) =>
        var count := AppendHistory(text);
        replies := replies + [LoadedReport(count)];
    }

    /** `show_context_command`. */
    method ShowContextCommand(userId: int) returns (replies: seq<string>)
      ensures !IsUserAllowed(allowedUsers, userId) ==> replies == []
      ensures IsUserAllowed(allowedUsers, userId) && conversationHistory == "" ==>
        replies == [EmptyContextText]
      ensures IsUserAllowed(allowedUsers, userId) && conversationHistory != "" ==>
        replies == [ContextReport(|conversationHistory|, Preview(conversationHistory))]
    {
      if !IsUserAllowed(allowedUsers, userId) {
        return [];
      }
      if conversationHistory == "" {
        replies := [EmptyContextText];
      } else {
        replies := [ContextReport(|conversationHistory|, Preview(conversationHistory))];
      }
    }

    /** `get_deepseek_response`: the request it posts and the text it
        returns, given what the API call produced. */
    method GetDeepSeekResponse(userMessage: string, outcome: ApiOutcome)
      returns (request: Payload, response: string)
      ensures request == Payload(ModelName, Messages(conversationHistory, userMessage), false)
      ensures response == ResponseText(outcome)
    {
      request := BuildPayload(conversationHistory, userMessage);
      response := ResponseText(outcome);
    }

    /** `handle_message`: a user off the allow-list gets the refusal and no
        request is made; otherwise the response is split and every part is
        sent, in order. */
    method HandleMessage(userId: int, userMessage: string, outcome: ApiOutcome)
      returns (request: Option<Payload>, replies: seq<string>)
      ensures !IsUserAllowed(allowedUsers, userId) ==>
        request == None && replies == [AccessDeniedText]
      ensures IsUserAllowed(allowedUsers, userId) ==>
        request == Some(Payload(ModelName, Messages(conversationHistory, userMessage), false)) &&
        replies == Split(ResponseText(outcome), DefaultMaxLength)
      ensures forall i :: 0 <= i < |replies| ==> |replies[i]| <= DefaultMaxLength
      ensures |replies| >= 1
    {
      if !IsUserAllowed(allowedUsers, userId) {
        return None, [AccessDeniedText];
      }
      var payload, response := GetDeepSeekResponse(userMessage, outcome);
      request := Some(payload);
      var parts := SplitMessage(response, DefaultMaxLength);
      replies := [];
      for i := 0 to |parts|
        invariant replies == parts[..i]
      {
        PrefixExtend(parts, i);
        replies := replies + [parts[i]];
      }
      PrefixWhole(parts);
    }
  }

  lemma PrefixExtend(parts: seq<string>, i: nat)
    requires i < |parts|
    ensures parts[..i + 1] == parts[..i] + [parts[i]]
  {
  }

  lemma PrefixWhole(parts: seq<string>)
    ensures parts[..|parts|] == parts
  {
  }

  // ---------------------------------------------------------- properties

  /** The history only grows: what was there is kept as a prefix, and after
      a non-empty upload it is not empty. */
  lemma {:induction false} HistoryNeverTruncated(history: string, uploads: seq<string>)
    ensures history <= AppendAll(history, uploads)
    ensures |AppendAll(history, uploads)| >= |history|
    decreases |uploads|
  {
    if uploads != [] {
      HistoryNeverTruncated(Appended(history, uploads[0]), uploads[1..]);
    }
  }

  /** The history after a series of uploads. */
  function AppendAll(history: string, uploads: seq<string>): string
    decreases |uploads|
  {
    if uploads == [] then history else AppendAll(Appended(history, uploads[0]), uploads[1..])
  }

  /** Each failure text fits one Telegram message, so a failed request is
      answered with exactly one reply. */
  lemma FailureIsOneReply(e: Raised)
    ensures Split(ResponseText(Failed(e)), DefaultMaxLength) == [ResponseText(Failed(e))]
  {
    assert |ApiErrorText| == 40 && |ConnectionErrorText| == 45;
    assert |TimeoutText| == 42 && |UnexpectedErrorText| == 51;
  }

  /** Only the owner is let in by the allow-list the bot starts with. */
  lemma OnlyOwnerAllowed(userId: int)
    ensures IsUserAllowed([OwnerId], userId) <==> userId == OwnerId
  {
  }

  /** A client of the handlers: the owner uploads "notes.txt" holding "X"
      into an empty history; `/show_context` then reports one character and
      shows "X", and a message is sent with the history as context. */
  method UploadThenAsk()
  {
    var bot := new DeepSeekBot();
    var uploaded := bot.HandleDocument(OwnerId, "text/plain", "notes.txt", Some("X"));
    assert uploaded == [LoadingText, LoadedReport(1)];
    var shown := bot.ShowContextCommand(OwnerId);
    assert shown == [ContextReport(1, "X")];
    var noRequest, refused := bot.HandleMessage(OwnerId + 1, "Hello", Answered("Hi"));
    assert noRequest == None && refused == [AccessDeniedText];
    var request, replies := bot.HandleMessage(OwnerId, "Hello", Answered("Hi"));
    assert bot.conversationHistory == "X";
    assert Messages("X", "Hello") == [ChatMessage(System, BaseSystemPrompt),
      ChatMessage(System, ContextMessage("X")), ChatMessage(User, "Hello")];
    assert request == Some(Payload(ModelName, [ChatMessage(System, BaseSystemPrompt),
      ChatMessage(System, ContextMessage("X")), ChatMessage(User, "Hello")], false));
    assert replies == ["Hi"];
  }
}
