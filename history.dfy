/**
 * The capacity rule of one chat's history (telegram_bot.py, lines 51 and
 * 88-92): a save appends, and a history longer than the cap keeps only its
 * newest `MaxMessagesPerChat` records.
 */
module ChatHistory {
  import opened Messages

  /** `MAX_MESSAGES_PER_CHAT`. */
  const MaxMessagesPerChat: nat := 100

  function Min(x: nat, y: nat): (m: nat)
    ensures m <= x && m <= y && (m == x || m == y)
  {
    if x <= y then x else y
  }

  /** `history[-MAX_MESSAGES_PER_CHAT:]` when the history is over the cap,
      the history itself otherwise: the newest records, oldest dropped first. */
  function KeepNewest(s: seq<MessageRecord>): (r: seq<MessageRecord>)
    ensures |r| == Min(|s|, MaxMessagesPerChat)
    ensures r == s[|s| - |r|..]
  {
    if |s| > MaxMessagesPerChat then s[|s| - MaxMessagesPerChat..] else s
  }

  /** The history after saving `ms` one after the other. */
  function SaveAll(h: seq<MessageRecord>, ms: seq<MessageRecord>): (r: seq<MessageRecord>)
    decreases |ms|
  {
    if ms == [] then h else SaveAll(KeepNewest(h + [ms[0]]), ms[1..])
  }

  /** Trimming can be postponed: trimming a long-enough suffix of `v`
      gives the same records as trimming `v`. */
  lemma KeepNewestOfSuffix(u: seq<MessageRecord>, v: seq<MessageRecord>)
    requires |u| <= |v| && u == v[|v| - |u|..]
    requires |u| >= Min(|v|, MaxMessagesPerChat)
    ensures KeepNewest(u) == KeepNewest(v)
  {
  }

  /** Saving records one at a time into a history within the cap leaves the
      newest records of the whole stream, in the order they were saved. */
  lemma {:induction false} SaveAllKeepsNewest(h: seq<MessageRecord>, ms: seq<MessageRecord>)
    requires |h| <= MaxMessagesPerChat
    ensures SaveAll(h, ms) == KeepNewest(h + ms)
    decreases |ms|
  {
    if ms == [] {
      assert h + ms == h;
    } else {
      var h' := KeepNewest(h + [ms[0]]);
      SaveAllKeepsNewest(h', ms[1..]);
      // h' + ms[1..] is a suffix of h + ms at least as long as the cap allows
      var v := h + ms;
      var u := h' + ms[1..];
      assert h + [ms[0]] + ms[1..] == v;
      assert u == v[|v| - |u|..];
      KeepNewestOfSuffix(u, v);
    }
  }

  /** 105 saves into an empty history: the first 5 records are gone and the
      last 100 remain, in order. */
  lemma OverflowDropsOldest(ms: seq<MessageRecord>)
    requires |ms| == MaxMessagesPerChat + 5
    ensures |SaveAll([], ms)| == MaxMessagesPerChat
    ensures SaveAll([], ms) == ms[5..]
  {
    SaveAllKeepsNewest([], ms);
    assert [] + ms == ms;
    assert KeepNewest(ms) == ms[|ms| - MaxMessagesPerChat..];
  }
}
