/**
 * Client code: what a caller can conclude from the handlers' contracts alone.
 */
module Scenarios {
  import opened Messages
  import opened ChatHistory
  import opened Transcript
  import opened SummarizerBot

  function AlwaysFails(transcript: string): Result<string> {
    Err(UpstreamError("connection reset"))
  }

  /** The lines of the two example records. */
  lemma ExampleLines()
    ensures FormatLine(MessageRecord(Timestamp(9, 0), 1, "alice", "hi")) == "[09:00] alice: hi"
    ensures FormatLine(MessageRecord(Timestamp(9, 1), 2, "bob", "hey")) == "[09:01] bob: hey"
  {
    assert DigitChar(0) == '0' && DigitChar(1) == '1' && DigitChar(9) == '9';
    assert FormatTime(Timestamp(9, 0)) == "09:00";
    assert FormatTime(Timestamp(9, 1)) == "09:01";
  }

  /** The transcript of the two-message exchange in chat 42. */
  lemma TwoLineTranscript(a: MessageRecord, b: MessageRecord)
    requires FormatLine(a) == "[09:00] alice: hi"
    requires FormatLine(b) == "[09:01] bob: hey"
    ensures FormatTranscript([a, b]) == "[09:00] alice: hi\n[09:01] bob: hey"
  {
    assert [a, b][1..] == [b];
  }

  /** Two messages into chat 42, their transcript, a failed summary that
      leaves the history alone, then clear and count. */
  method TwoMessagesThenClear() {
    var bot := new DialogueSummarizerBot();
    var alice := User(1, Some("alice"), "Alice");
    var bob := User(2, None, "bob");
    bot.SaveMessage(42, alice, "hi", Timestamp(9, 0));
    bot.SaveMessage(42, bob, "hey", Timestamp(9, 1));
    var a := MessageRecord(Timestamp(9, 0), 1, "alice", "hi");
    var b := MessageRecord(Timestamp(9, 1), 2, "bob", "hey");
    assert bot.History(42) == [a, b];
    ExampleLines();
    TwoLineTranscript(a, b);

    var reply, request := bot.SummarizeCommand(42, AlwaysFails);
    assert request == Some("[09:00] alice: hi\n[09:01] bob: hey");
    assert reply == SummaryFailed;
    assert bot.History(42) == [a, b];

    var cleared := bot.ClearCommand(42);
    assert cleared == Deleted(2);
    var counted := bot.CountCommand(42);
    assert counted == NoMessagesSaved;
    var again := bot.ClearCommand(42);
    assert again == NothingToDelete;
  }

  /** A chat never written to: nothing to summarise, no upstream request. */
  method UnknownChat(getSummary: string -> Result<string>) {
    var bot := new DialogueSummarizerBot();
    bot.SaveMessage(1, User(5, Some(""), "Eve"), "hello", Timestamp(23, 59));
    assert bot.History(1)[0].username == "Eve";
    var reply, request := bot.SummarizeCommand(7, getSummary);
    assert request == None && reply == NothingToSummarize;
    assert bot.History(1) != [];
    var counted := bot.CountCommand(1);
    assert counted == Stored(1, 100);
  }
}
