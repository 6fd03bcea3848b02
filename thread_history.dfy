/** Thread history retrieval: the replies of a Slack thread, minus the
    anchor message, turned into role/content entries. */
module ThreadHistory {
  import opened PyValues

  /** One message of a `conversations.replies` result. */
  datatype SlackMessage = SlackMessage(ts: Field, botId: Field, text: Field)

  /** What `conversations_replies` gave back: a result whose `messages` key
      may be absent, a `SlackApiError`, or any other exception, which the
      history helper does not catch. `msg` is the exception's `str`. */
  datatype RepliesOutcome =
    | RepliesOk(messages: Option<seq<SlackMessage>>)
    | RepliesSlackError(msg: string)
    | RepliesRaised(msg: string)

  /** A `{"role": ..., "content": ...}` entry of the history. */
  datatype HistoryEntry = HistoryEntry(role: string, content: PyVal)

  /** The helper either returns a history or lets an exception through. */
  datatype HistoryResult = Fetched(entries: seq<HistoryEntry>) | Raised(msg: string)

  const AssistantRole := "assistant"
  const UserRole := "user"

  /** The message is the one the thread is anchored at (`msg.get("ts") == thread_ts`). */
  predicate IsAnchor(m: SlackMessage, anchor: PyVal) {
    Get(m.ts, PyNone) == anchor
  }

  function Entry(m: SlackMessage): HistoryEntry {
    HistoryEntry(if Truthy(Get(m.botId, PyNone)) then AssistantRole else UserRole,
                 Get(m.text, PyStr("")))
  }

  /** The history of `msgs`: every non-anchor message, in order, as an entry. */
  function FormatHistory(msgs: seq<SlackMessage>, anchor: PyVal): seq<HistoryEntry> {
    if msgs == [] then []
    else if IsAnchor(msgs[0], anchor) then FormatHistory(msgs[1..], anchor)
    else [Entry(msgs[0])] + FormatHistory(msgs[1..], anchor)
  }

  /** The result of the history helper for a given outcome of the Slack call. */
  function History(outcome: RepliesOutcome, anchor: PyVal): HistoryResult {
    match outcome
    case RepliesOk(messages) => Fetched(FormatHistory(messages.GetOr([]), anchor))
    case RepliesSlackError(_) => Fetched([])
    case RepliesRaised(msg) => Raised(msg)
  }

  /** The number of anchor messages in `msgs`. */
  function AnchorCount(msgs: seq<SlackMessage>, anchor: PyVal): nat {
    if msgs == [] then 0
    else (if IsAnchor(msgs[0], anchor) then 1 else 0) + AnchorCount(msgs[1..], anchor)
  }

  /** Formatting distributes over concatenation: the history of a longer
      reply list extends the history of its prefix, in order. */
  lemma {:induction false} FormatHistoryAppend(a: seq<SlackMessage>, b: seq<SlackMessage>, anchor: PyVal)
    ensures FormatHistory(a + b, anchor) == FormatHistory(a, anchor) + FormatHistory(b, anchor)
  {
    if a == [] {
      assert a + b == b;
    } else {
      assert (a + b)[1..] == a[1..] + b;
      FormatHistoryAppend(a[1..], b, anchor);
    }
  }

  /** Exactly the anchor messages are dropped, so the history is never
      longer than the reply list. */
  lemma {:induction false} FormatHistoryLength(msgs: seq<SlackMessage>, anchor: PyVal)
    ensures |FormatHistory(msgs, anchor)| == |msgs| - AnchorCount(msgs, anchor)
    ensures |FormatHistory(msgs, anchor)| <= |msgs|
  {
    if msgs != [] {
      FormatHistoryLength(msgs[1..], anchor);
    }
  }

  /** Every index moved one place to the right. */
  function Shift(s: seq<nat>): (r: seq<nat>)
    ensures |r| == |s| && forall k :: 0 <= k < |s| ==> r[k] == s[k] + 1
  {
    if s == [] then [] else [s[0] + 1] + Shift(s[1..])
  }

  /** The positions of the non-anchor messages of `msgs`, in increasing order. */
  function Sources(msgs: seq<SlackMessage>, anchor: PyVal): seq<nat> {
    if msgs == [] then []
    else if IsAnchor(msgs[0], anchor) then Shift(Sources(msgs[1..], anchor))
    else [0] + Shift(Sources(msgs[1..], anchor))
  }

  lemma {:induction false} SourcesPointAtEntries(msgs: seq<SlackMessage>, anchor: PyVal)
    ensures |Sources(msgs, anchor)| == |FormatHistory(msgs, anchor)|
    ensures forall k :: 0 <= k < |Sources(msgs, anchor)| ==>
              Sources(msgs, anchor)[k] < |msgs| && !IsAnchor(msgs[Sources(msgs, anchor)[k]], anchor) &&
              FormatHistory(msgs, anchor)[k] == Entry(msgs[Sources(msgs, anchor)[k]])
  {
    if msgs != [] {
      var tail := msgs[1..];
      SourcesPointAtEntries(tail, anchor);
      var rest := Sources(tail, anchor);
      var idx := Sources(msgs, anchor);
      forall k | 0 <= k < |rest|
        ensures Shift(rest)[k] < |msgs| && msgs[Shift(rest)[k]] == tail[rest[k]]
      {
      }
      if !IsAnchor(msgs[0], anchor) {
        forall k | 1 <= k < |idx|
          ensures idx[k] == Shift(rest)[k - 1]
          ensures FormatHistory(msgs, anchor)[k] == FormatHistory(tail, anchor)[k - 1]
        {
        }
      }
    }
  }

  lemma {:induction false} SourcesIncreasing(msgs: seq<SlackMessage>, anchor: PyVal)
    ensures forall k, l :: 0 <= k < l < |Sources(msgs, anchor)| ==> Sources(msgs, anchor)[k] < Sources(msgs, anchor)[l]
  {
    if msgs != [] {
      SourcesIncreasing(msgs[1..], anchor);
      var rest := Sources(msgs[1..], anchor);
      var idx := Sources(msgs, anchor);
      if !IsAnchor(msgs[0], anchor) {
        forall k, l | 0 <= k < l < |idx|
          ensures idx[k] < idx[l]
        {
          assert idx[l] == Shift(rest)[l - 1];
          if k > 0 {
            assert idx[k] == Shift(rest)[k - 1];
          }
        }
      }
    }
  }

  lemma {:induction false} SourcesComplete(msgs: seq<SlackMessage>, anchor: PyVal)
    ensures forall j :: 0 <= j < |msgs| && !IsAnchor(msgs[j], anchor) ==> j in Sources(msgs, anchor)
  {
    if msgs != [] {
      var tail := msgs[1..];
      SourcesComplete(tail, anchor);
      var rest := Sources(tail, anchor);
      var idx := Sources(msgs, anchor);
      forall j | 0 <= j < |msgs| && !IsAnchor(msgs[j], anchor)
        ensures j in idx
      {
        if j == 0 {
          assert idx[0] == 0;
        } else {
          assert tail[j - 1] == msgs[j];
          var k :| 0 <= k < |rest| && rest[k] == j - 1;
          assert Shift(rest)[k] == j;
          if IsAnchor(msgs[0], anchor) {
            assert idx[k] == j;
          } else {
            assert idx[k + 1] == j;
          }
        }
      }
    }
  }

  /** The history is the non-anchor messages, in their order, each mapped to
      its entry: `idx` gives, for each entry, the message it comes from. */
  lemma FormatHistorySources(msgs: seq<SlackMessage>, anchor: PyVal) returns (idx: seq<nat>)
    ensures |idx| == |FormatHistory(msgs, anchor)|
    ensures forall k :: 0 <= k < |idx| ==> idx[k] < |msgs| && !IsAnchor(msgs[idx[k]], anchor)
    ensures forall k :: 0 <= k < |idx| ==> FormatHistory(msgs, anchor)[k] == Entry(msgs[idx[k]])
    ensures forall k, l :: 0 <= k < l < |idx| ==> idx[k] < idx[l]
    ensures forall j :: 0 <= j < |msgs| && !IsAnchor(msgs[j], anchor) ==> j in idx
  {
    idx := Sources(msgs, anchor);
    SourcesPointAtEntries(msgs, anchor);
    SourcesIncreasing(msgs, anchor);
    SourcesComplete(msgs, anchor);
  }

  /** Each entry's role is "assistant" exactly when its message has a truthy
      `bot_id`, and its content is the message text, "" when absent. */
  lemma EntryRole(m: SlackMessage)
    ensures Entry(m).role == AssistantRole <==> Truthy(Get(m.botId, PyNone))
    ensures Entry(m).role == UserRole <==> !Truthy(Get(m.botId, PyNone))
    ensures Entry(m).content == (if m.text.Missing? then PyStr("") else m.text.value)
  {
  }

  /** `_get_thread_history` once `conversations_replies` has returned: the
      loop skips the anchor and appends one entry per other message. */
  method GetThreadHistory(outcome: RepliesOutcome, anchor: PyVal) returns (r: HistoryResult)
    ensures r == History(outcome, anchor)
    ensures outcome.RepliesSlackError? ==> r == Fetched([])
    ensures r.Raised? <==> outcome.RepliesRaised?
    ensures outcome.RepliesOk? && r.Fetched? ==> |r.entries| <= |outcome.messages.GetOr([])|
  {
    match outcome
    case RepliesSlackError(_) =>
      r := Fetched([]);
    case RepliesRaised(msg) =>
      r := Raised(msg);
    case RepliesOk(messages) =>
      var msgs := messages.GetOr([]);
      var history := [];
      for i := 0 to |msgs|
        invariant history == FormatHistory(msgs[..i], anchor)
      {
        FormatHistoryAppend(msgs[..i], [msgs[i]], anchor);
        assert msgs[..i + 1] == msgs[..i] + [msgs[i]];
        if IsAnchor(msgs[i], anchor) {
          continue;
        }
        history := history + [Entry(msgs[i])];
      }
      assert msgs[..|msgs|] == msgs;
      FormatHistoryLength(msgs, anchor);
      r := Fetched(history);
  }
}
