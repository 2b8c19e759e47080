/**
 * The store-touching part of `DialogueSummarizerBot` (telegram_bot.py): the
 * per-chat message map and the handlers that save, clear, count and
 * summarise. Replies are modelled by which branch is taken and the numbers
 * they report; the text-generation call is a parameter that may fail.
 */
module SummarizerBot {
  import opened Messages
  import opened ChatHistory
  import opened Transcript

  /** Any failure of the upstream text-generation call. */
  datatype UpstreamError = UpstreamError(reason: string)

  datatype Result<T> = Ok(value: T) | Err(error: UpstreamError)

  /** What `/summarize` answers: the no-messages notice, the summary with the
      number of messages it covers, or the generic failure notice. */
  datatype SummarizeReply = NothingToSummarize | Summary(messageCount: nat, summary: string) | SummaryFailed

  /** What `/clear` answers: the nothing-to-delete notice, or how many
      messages were deleted. */
  datatype ClearReply = NothingToDelete | Deleted(removed: nat)

  /** What `/count` answers: the no-messages notice, or the number of stored
      messages together with the cap. */
  datatype CountReply = NoMessagesSaved | Stored(count: nat, max: nat)

  class DialogueSummarizerBot {
    /** `chat_messages`: chat id to that chat's history, oldest first. */
    var chatMessages: map<int, seq<MessageRecord>>

    /** Every history is within the cap. */
    ghost predicate Valid()
      reads this
    {
      forall c :: c in chatMessages ==> |chatMessages[c]| <= MaxMessagesPerChat
    }

    /** `chat_messages[chat_id]` of a `defaultdict(list)`: an unknown chat
        reads as an empty history. */
    function History(chatId: int): (h: seq<MessageRecord>)
      reads this
    {
      if chatId in chatMessages then chatMessages[chatId] else []
    }

    constructor ()
      ensures Valid()
      ensures chatMessages == map[]
      ensures forall c :: History(c) == []
    {
      chatMessages := map[];
    }

    /** `save_message`: append the new record, then keep only the newest
        `MaxMessagesPerChat` records. No other chat changes. */
    method SaveMessage(chatId: int, user: User, text: string, now: Timestamp)
      requires Valid()
      modifies this
      ensures Valid()
      ensures chatMessages == old(chatMessages)[chatId := KeepNewest(old(History(chatId)) + [MakeRecord(user, text, now)])]
      ensures |History(chatId)| == Min(|old(History(chatId))| + 1, MaxMessagesPerChat)
      ensures History(chatId) == old(History(chatId)) + [MakeRecord(user, text, now)]
                                 || History(chatId) == old(History(chatId))[1..] + [MakeRecord(user, text, now)]
      ensures forall c :: c != chatId ==> History(c) == old(History(c))
    {
      var record := MakeRecord(user, text, now);
      var history := History(chatId) + [record];
      chatMessages := chatMessages[chatId := history];
      if |chatMessages[chatId]| > MaxMessagesPerChat {
        chatMessages := chatMessages[chatId := history[|history| - MaxMessagesPerChat..]];
      }
      assert chatMessages[chatId] == KeepNewest(old(History(chatId)) + [record]);
    }

    /** `clear_command`: an empty (or unknown) chat is reported as having
        nothing to delete; otherwise its history is emptied and the number of
        removed records reported. Reading the `defaultdict` leaves an empty
        entry for an unknown chat; no history changes except the cleared one. */
    method ClearCommand(chatId: int) returns (reply: ClearReply)
      requires Valid()
      modifies this
      ensures Valid()
      ensures chatMessages == old(chatMessages)[chatId := []]
      ensures old(History(chatId)) == [] ==> reply == NothingToDelete
      ensures old(History(chatId)) != [] ==> reply == Deleted(|old(History(chatId))|)
      ensures reply.Deleted? ==> 0 < reply.removed <= MaxMessagesPerChat
      ensures History(chatId) == []
      ensures forall c :: c != chatId ==> History(c) == old(History(c))
    {
      var history := History(chatId);
      chatMessages := chatMessages[chatId := history];
      if chatMessages[chatId] == [] {
        return NothingToDelete;
      }
      var messageCount := |chatMessages[chatId]|;
      chatMessages := chatMessages[chatId := []];
      reply := Deleted(messageCount);
    }

    /** `count_command`: the length of the chat's history (0 for a chat never
        seen), reported together with the cap. Only the `defaultdict` entry
        is added; no history changes. */
    method CountCommand(chatId: int) returns (reply: CountReply)
      requires Valid()
      modifies this
      ensures Valid()
      ensures chatMessages == old(chatMessages)[chatId := old(History(chatId))]
      ensures forall c :: History(c) == old(History(c))
      ensures History(chatId) == [] <==> reply == NoMessagesSaved
      ensures reply.Stored? ==> reply == Stored(|History(chatId)|, MaxMessagesPerChat)
    {
      var history := History(chatId);
      chatMessages := chatMessages[chatId := history];
      var count := |chatMessages[chatId]|;
      if count == 0 {
        reply := NoMessagesSaved;
      } else {
        reply := Stored(count, MaxMessagesPerChat);
      }
    }

    /** `summarize_command`: an empty history is answered without calling
        upstream; otherwise the transcript of the history is sent to
        `getSummary` exactly once (`request` is what was sent) and its answer
        or failure is reported with the history's length. Either way no
        history changes. */
    method SummarizeCommand(chatId: int, getSummary: string -> Result<string>)
      returns (reply: SummarizeReply, request: Option<string>)
      requires Valid()
      modifies this
      ensures Valid()
      ensures chatMessages == old(chatMessages)[chatId := old(History(chatId))]
      ensures forall c :: History(c) == old(History(c))
      ensures request == None <==> History(chatId) == []
      ensures request == None ==> reply == NothingToSummarize
      ensures request.Some? ==> request.value == FormatTranscript(History(chatId))
      ensures request.Some? && getSummary(request.value).Ok? ==>
                reply == Summary(|History(chatId)|, getSummary(request.value).value)
      ensures request.Some? && getSummary(request.value).Err? ==> reply == SummaryFailed
    {
      var history := History(chatId);
      chatMessages := chatMessages[chatId := history];
      if chatMessages[chatId] == [] {
        return NothingToSummarize, None;
      }
      var messagesText := FormatTranscript(chatMessages[chatId]);
      request := Some(messagesText);
      var answer := getSummary(messagesText);
      match answer {
        case Ok(summary) =>
          reply := Summary(|chatMessages[chatId]|, summary);
        case Err(_) =>
          reply := SummaryFailed;
      }
    }
  }
}
