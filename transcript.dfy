/**
 * The transcript sent for summarisation (telegram_bot.py,
 * `_format_messages_for_summary`): one line `[HH:MM] username: text` per
 * record, in order, joined with "\n".
 */
module Transcript {
  import opened Messages

  predicate IsDigit(c: char) {
    '0' <= c <= '9'
  }

  function DigitValue(c: char): (d: nat)
    requires IsDigit(c)
  {
    c as int - '0' as int
  }

  function DigitChar(d: nat): (c: char)
    requires d < 10
    ensures IsDigit(c) && DigitValue(c) == d
  {
    ('0' as int + d) as char
  }

  /** A number below 100 as two zero-padded decimal digits, as `%H` and `%M`
      of `strftime` print hours and minutes. */
  function Pad2(n: nat): (s: string)
    requires n < 100
    ensures |s| == 2 && IsDigit(s[0]) && IsDigit(s[1])
    ensures 10 * DigitValue(s[0]) + DigitValue(s[1]) == n
  {
    [DigitChar(n / 10), DigitChar(n % 10)]
  }

  /** Reads back an `HH:MM` field; the inverse of FormatTime. */
  function ParseTime(s: string): (t: Option<Timestamp>) {
    if |s| == 5 && IsDigit(s[0]) && IsDigit(s[1]) && s[2] == ':' && IsDigit(s[3]) && IsDigit(s[4]) then
      var h := 10 * DigitValue(s[0]) + DigitValue(s[1]);
      var m := 10 * DigitValue(s[3]) + DigitValue(s[4]);
      if h < 24 && m < 60 then Some(Timestamp(h, m)) else None
    else
      None
  }

  /** `strftime('%H:%M')`: five characters, two digits, a colon, two digits,
      from which the time can be read back unchanged. */
  function FormatTime(t: Timestamp): (s: string)
    ensures |s| == 5 && s[2] == ':'
    ensures IsDigit(s[0]) && IsDigit(s[1]) && IsDigit(s[3]) && IsDigit(s[4])
    ensures ParseTime(s) == Some(t)
  {
    Pad2(t.hour) + ":" + Pad2(t.minute)
  }

  /** The line shown for one record. */
  function FormatLine(m: MessageRecord): (line: string)
    ensures |line| == 10 + |m.username| + |m.text|
    ensures line[..8] == "[" + FormatTime(m.timestamp) + "] "
    ensures line[8..8 + |m.username|] == m.username
    ensures line[8 + |m.username|..10 + |m.username|] == ": "
    ensures line[10 + |m.username|..] == m.text
  {
    "[" + FormatTime(m.timestamp) + "] " + m.username + ": " + m.text
  }

  /** The transcript of `ms`, built record by record. */
  function FormatTranscript(ms: seq<MessageRecord>): (t: string)
    ensures t == "" <==> ms == []
    ensures ms != [] ==> |t| >= 8 && t[..8] == FormatLine(ms[0])[..8]
  {
    if |ms| == 0 then ""
    else if |ms| == 1 then FormatLine(ms[0])
    else FormatLine(ms[0]) + "\n" + FormatTranscript(ms[1..])
  }

  // ---------------------------------------------------------------------
  // Reference definitions: the list of lines the loop builds, Python's
  // `sep.join(parts)` and `s.split(sep)` for a one-character separator.

  function Lines(ms: seq<MessageRecord>): (ls: seq<string>)
  {
    seq(|ms|, i requires 0 <= i < |ms| => FormatLine(ms[i]))
  }

  /** `sep.join(parts)`: the parts in order with `sep` between neighbours. */
  function Join(parts: seq<string>, sep: string): (s: string)
  {
    if |parts| == 0 then ""
    else if |parts| == 1 then parts[0]
    else Join(parts[..|parts| - 1], sep) + sep + parts[|parts| - 1]
  }

  /** `s.split("\n")`: always at least one part. */
  function SplitLines(s: string): (parts: seq<string>)
    ensures |parts| >= 1
  {
    if |s| == 0 then [""]
    else
      var rest := SplitLines(s[1..]);
      if s[0] == '\n' then [""] + rest
      else [[s[0]] + rest[0]] + rest[1..]
  }

  /** A record whose name and text hold no line break. */
  predicate SingleLine(m: MessageRecord) {
    '\n' !in m.username && '\n' !in m.text
  }

  // ---------------------------------------------------------------------
  // Properties of the transcript.

  /** Appending a record adds one line at the end of the transcript. */
  lemma {:induction false} TranscriptAppend(ms: seq<MessageRecord>, m: MessageRecord)
    requires ms != []
    ensures FormatTranscript(ms + [m]) == FormatTranscript(ms) + "\n" + FormatLine(m)
    decreases |ms|
  {
    if |ms| == 1 {
      assert (ms + [m])[1..] == [m];
    } else {
      assert (ms + [m])[1..] == ms[1..] + [m];
      TranscriptAppend(ms[1..], m);
    }
  }

  /** The recursive transcript equals `"\n".join(lines)` of the per-record lines. */
  lemma {:induction false} TranscriptIsJoinOfLines(ms: seq<MessageRecord>)
    ensures FormatTranscript(ms) == Join(Lines(ms), "\n")
    decreases |ms|
  {
    if |ms| >= 2 {
      var n := |ms|;
      var init := ms[..n - 1];
      assert Lines(ms)[..n - 1] == Lines(init);
      TranscriptIsJoinOfLines(init);
      assert ms == init + [ms[n - 1]];
      TranscriptAppend(init, ms[n - 1]);
    }
  }

  lemma {:induction false} SplitWithoutBreak(s: string)
    requires '\n' !in s
    ensures SplitLines(s) == [s]
    decreases |s|
  {
    if |s| > 0 {
      SplitWithoutBreak(s[1..]);
      assert [s[0]] + s[1..] == s;
    }
  }

  lemma {:induction false} SplitAtBreak(a: string, b: string)
    requires '\n' !in a
    ensures SplitLines(a + "\n" + b) == [a] + SplitLines(b)
    decreases |a|
  {
    if |a| == 0 {
      assert a + "\n" + b == "\n" + b;
      assert ("\n" + b)[1..] == b;
    } else {
      SplitAtBreak(a[1..], b);
      assert (a + "\n" + b)[1..] == a[1..] + "\n" + b;
      assert [a[0]] + a[1..] == a;
    }
  }

  lemma LineWithoutBreak(m: MessageRecord)
    requires SingleLine(m)
    ensures '\n' !in FormatLine(m)
  {
  }

  /** When no name or text holds a line break, splitting the transcript at
      line breaks gives back exactly one line per record, in order. */
  lemma {:induction false} SplitTranscript(ms: seq<MessageRecord>)
    requires ms != []
    requires forall i :: 0 <= i < |ms| ==> SingleLine(ms[i])
    ensures SplitLines(FormatTranscript(ms)) == Lines(ms)
    decreases |ms|
  {
    LineWithoutBreak(ms[0]);
    if |ms| == 1 {
      SplitWithoutBreak(FormatLine(ms[0]));
    } else {
      SplitTranscript(ms[1..]);
      SplitAtBreak(FormatLine(ms[0]), FormatTranscript(ms[1..]));
      assert Lines(ms) == [FormatLine(ms[0])] + Lines(ms[1..]);
    }
  }

  /** Transcripts whose first records carry different times differ. */
  lemma HeadTimesDiffer(a: seq<MessageRecord>, b: seq<MessageRecord>)
    requires a != [] && b != []
    requires a[0].timestamp != b[0].timestamp
    ensures FormatTranscript(a) != FormatTranscript(b)
  {
    var ta, tb := FormatTranscript(a), FormatTranscript(b);
    assert ParseTime(FormatTime(a[0].timestamp)) != ParseTime(FormatTime(b[0].timestamp));
    assert ta[..8][1..6] == FormatTime(a[0].timestamp);
    assert tb[..8][1..6] == FormatTime(b[0].timestamp);
  }

  lemma TailsDiffer(p: string, x: string, y: string)
    requires x != y
    ensures p + x != p + y
  {
    assert (p + x)[|p|..] == x;
    assert (p + y)[|p|..] == y;
  }

  lemma SameMultisetTails(a: seq<MessageRecord>, b: seq<MessageRecord>)
    requires a != [] && b != [] && a[0] == b[0]
    requires multiset(a) == multiset(b)
    ensures multiset(a[1..]) == multiset(b[1..])
  {
    assert a == [a[0]] + a[1..] && b == [b[0]] + b[1..];
    assert multiset(a[1..]) == multiset(a) - multiset{a[0]};
    assert multiset(b[1..]) == multiset(b) - multiset{b[0]};
  }

  /** Given pairwise distinct hour:minute (the only part of the time the
      transcript shows), two different orders of the same records
      give different transcripts: the transcript keeps the order. */
  lemma {:induction false} TranscriptKeepsOrder(a: seq<MessageRecord>, b: seq<MessageRecord>)
    requires multiset(a) == multiset(b)
    requires forall i, j :: 0 <= i < j < |a| ==> a[i].timestamp != a[j].timestamp
    requires a != b
    ensures FormatTranscript(a) != FormatTranscript(b)
    decreases |a|
  {
    assert |a| == |multiset(a)| == |multiset(b)| == |b|;
    if a[0] != b[0] {
      assert b[0] in multiset(a);
      var j :| 0 <= j < |a| && a[j] == b[0];
      HeadTimesDiffer(a, b);
    } else {
      SameMultisetTails(a, b);
      assert a[1..] != b[1..] by {
        assert a == [a[0]] + a[1..] && b == [b[0]] + b[1..];
      }
      assert |a| >= 2;
      forall i, j | 0 <= i < j < |a[1..]|
        ensures a[1..][i].timestamp != a[1..][j].timestamp
      {
        assert a[1..][i] == a[i + 1] && a[1..][j] == a[j + 1];
      }
      TranscriptKeepsOrder(a[1..], b[1..]);
      TailsDiffer(FormatLine(a[0]) + "\n", FormatTranscript(a[1..]), FormatTranscript(b[1..]));
    }
  }
}
