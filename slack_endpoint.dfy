/** The Slack events endpoint: retry suppression, the URL-verification
    handshake, classification of `event_callback` events, and the processing
    of an eligible event (history fetch, backend chat call, reply post) with
    the mapping of every outcome to the webhook response.

    The Slack Web API and the backend chat service are not called: their
    results are given as a `Services` value, and the model answers with the
    response and the ordered list of external calls the endpoint makes. */
module SlackEndpoint {
  import opened PyValues
  import opened Text
  import opened ThreadHistory

  // ---------------------------------------------------------------- inputs

  /** The retry headers: `X-Slack-Retry-Num`, already parsed as an integer,
      and `X-Slack-Retry-Reason`; `None` when a header is absent. */
  datatype Headers = Headers(retryNum: Option<int>, retryReason: Option<string>)

  /** The `app` setting, a mapping whose `app_id` key may be missing. */
  datatype AppSetting = AppSetting(appId: Option<string>)

  /** The endpoint settings: `allowRetry` is the truthiness of the
      `allow_retry` option, `app` the `app` option when present. */
  datatype Settings = Settings(allowRetry: bool, app: Option<AppSetting>)

  /** The inner `event` object of an `event_callback` payload. `text` and
      `channel` are strings when present. */
  datatype Event = Event(
    kind: Option<string>,
    text: Option<string>,
    channel: Option<string>,
    ts: Field,
    threadTs: Field,
    botId: Field,
    subtype: Field)

  /** The decoded JSON body of the webhook request. */
  datatype Payload = Payload(kind: Option<string>, challenge: Field, event: Option<Event>)

  datatype Request = Request(headers: Headers, payload: Payload)

  /** What `chat.invoke` gave back: a response mapping whose `answer` key
      may be missing, or an exception with its `str`. */
  datatype ChatOutcome = Answered(answer: Field) | ChatRaised(msg: string)

  /** What `chat_postMessage` did for the answer: posted, raised a
      `SlackApiError`, or raised another exception. */
  datatype PostOutcome = Posted | PostSlackError(msg: string) | PostRaised(msg: string)

  /** The outcomes of the external calls of one request. The apology post
      made on the error path has no entry: its `SlackApiError` is swallowed. */
  datatype Services = Services(replies: RepliesOutcome, chat: ChatOutcome, post: PostOutcome)

  // --------------------------------------------------------------- outputs

  /** What the router decided: acknowledge, answer the handshake, or
      process `text` for the thread `anchor` of `channel`. */
  datatype Decision = Ack | Challenge(token: PyVal) | Respond(text: string, channel: string, anchor: PyVal)

  /** The response body: plain text, or the JSON object `{"challenge": ...}`. */
  datatype Body = PlainText(text: string) | ChallengeJson(challenge: PyVal)

  datatype Response = Response(status: int, body: Body)

  /** An external call the endpoint makes. */
  datatype Call =
    | FetchReplies(channel: string, ts: PyVal)
    | InvokeChat(appId: string, query: string, inputs: map<string, string>,
                 conversationId: string, responseMode: string, user: string)
    | PostMessage(channel: string, text: PyVal, threadTs: PyVal)

  /** The webhook response and the external calls made, in order. */
  datatype Outcome = Outcome(response: Response, calls: seq<Call>)

  const StatusOk := 200
  const AckText := "ok"
  const TimeoutReason := "http_timeout"
  const UrlVerification := "url_verification"
  const EventCallback := "event_callback"
  const AppMention := "app_mention"
  const MessageEvent := "message"
  const BotMessage := "bot_message"
  const MentionPrefix := "<@"
  const MentionSeparator := "> "
  const DmPrefix := "D"
  const KeyPrefix := "slack-"
  const BlockingMode := "blocking"
  const ChatUser := "slack-user"
  const Apology := "Sorry, I'm having trouble processing your request. Please try again later."
  const SendErrorPrefix := "Error sending message to Slack: "
  const ErrorPrefix := "An error occurred: "

  function AckOutcome(): Outcome {
    Outcome(Response(StatusOk, PlainText(AckText)), [])
  }

  // --------------------------------------------------------------- routing

  /** The request is a redelivery the endpoint drops without reading the body. */
  predicate RetrySuppressed(h: Headers, settings: Settings) {
    !settings.allowRetry &&
    (h.retryReason == Some(TimeoutReason) || (h.retryNum.Some? && h.retryNum.value > 0))
  }

  /** The request does not reach the unhandled crash of an `event_callback`
      payload that has no `event`. */
  predicate NoCrash(req: Request, settings: Settings) {
    RetrySuppressed(req.headers, settings) ||
    req.payload.kind != Some(EventCallback) ||
    req.payload.event.Some?
  }

  /** The text of a mention with a leading `<@...>` token removed: when the
      text starts with `<@` and contains `"> "`, the part after the first
      `"> "`, otherwise the text itself. */
  function CleanMention(text: string): (r: string)
    ensures |r| <= |text| && r == text[|text| - |r|..]
    ensures !StartsWith(text, MentionPrefix) || !(exists j :: OccursAt(text, MentionSeparator, j)) ==> r == text
    ensures StartsWith(text, MentionPrefix) && (exists j :: OccursAt(text, MentionSeparator, j)) ==>
              var cut := |text| - |r|;
              2 <= cut && OccursAt(text, MentionSeparator, cut - 2) &&
              forall j :: 0 <= j < cut - 2 ==> !OccursAt(text, MentionSeparator, j)
  {
    if StartsWith(text, MentionPrefix) then
      match IndexOf(text, MentionSeparator)
      case Some(k) => text[k + |MentionSeparator|..]
      case None => text
    else text
  }

  /** The thread a mention answers in: `thread_ts` whenever the key is
      present (whatever its value), else the event's own `ts`. */
  function MentionAnchor(e: Event): PyVal {
    Get(e.threadTs, Get(e.ts, PyNone))
  }

  /** The thread a message answers in: `thread_ts` when truthy, else `ts`. */
  function MessageAnchor(e: Event): PyVal {
    var t := Get(e.threadTs, PyNone);
    if Truthy(t) then t else Get(e.ts, PyNone)
  }

  predicate FromBot(e: Event) {
    Truthy(Get(e.botId, PyNone)) || Get(e.subtype, PyNone) == PyStr(BotMessage)
  }

  predicate IsDmChannel(channel: string) {
    StartsWith(channel, DmPrefix)
  }

  /** An `app_mention` is always answered, with its cleaned text. */
  function HandleMention(e: Event): (d: Decision)
    ensures d.Respond?
    ensures d.text == CleanMention(e.text.GetOr(""))
    ensures d.channel == e.channel.GetOr("")
    ensures d.anchor == (if e.threadTs.Present? then e.threadTs.value else Get(e.ts, PyNone))
    ensures |d.text| <= |e.text.GetOr("")| && d.text == e.text.GetOr("")[|e.text.GetOr("")| - |d.text|..]
  {
    Respond(CleanMention(e.text.GetOr("")), e.channel.GetOr(""), MentionAnchor(e))
  }

  /** A `message` is answered only when no bot sent it and it is in a DM
      channel or in a thread; it is answered in its thread, or under itself. */
  function HandleMessage(e: Event): (d: Decision)
    ensures d.Ack? || d.Respond?
    ensures d.Ack? <==> FromBot(e) || (!IsDmChannel(e.channel.GetOr("")) && !Truthy(Get(e.threadTs, PyNone)))
    ensures d.Respond? ==> d.text == e.text.GetOr("") && d.channel == e.channel.GetOr("")
    ensures d.Respond? && Truthy(Get(e.threadTs, PyNone)) ==> d.anchor == Get(e.threadTs, PyNone)
    ensures d.Respond? && !Truthy(Get(e.threadTs, PyNone)) ==> d.anchor == Get(e.ts, PyNone) && IsDmChannel(d.channel)
  {
    if FromBot(e) then Ack
    else
      var channel := e.channel.GetOr("");
      if !IsDmChannel(channel) && !Truthy(Get(e.threadTs, PyNone)) then Ack
      else Respond(e.text.GetOr(""), channel, MessageAnchor(e))
  }

  /** The router: retry suppression first, then the handshake, then the
      classification of `event_callback` events; everything else is
      acknowledged. */
  function Route(req: Request, settings: Settings): (d: Decision)
    requires NoCrash(req, settings)
    ensures RetrySuppressed(req.headers, settings) ==> d == Ack
    ensures d.Challenge? <==> !RetrySuppressed(req.headers, settings) && req.payload.kind == Some(UrlVerification)
    ensures d.Challenge? ==> d.token == Get(req.payload.challenge, PyNone)
    ensures d.Respond? ==>
              !RetrySuppressed(req.headers, settings) && req.payload.kind == Some(EventCallback) &&
              req.payload.event.value.kind in {Some(AppMention), Some(MessageEvent)}
    ensures !RetrySuppressed(req.headers, settings) && req.payload.kind == Some(EventCallback) &&
            req.payload.event.value.kind == Some(AppMention) ==>
              d == HandleMention(req.payload.event.value)
    ensures !RetrySuppressed(req.headers, settings) && req.payload.kind == Some(EventCallback) &&
            req.payload.event.value.kind == Some(MessageEvent) ==>
              d == HandleMessage(req.payload.event.value)
    ensures !RetrySuppressed(req.headers, settings) && req.payload.kind == Some(EventCallback) &&
            req.payload.event.value.kind !in {Some(AppMention), Some(MessageEvent)} ==>
              d == Ack
  {
    if RetrySuppressed(req.headers, settings) then Ack
    else if req.payload.kind == Some(UrlVerification) then Challenge(Get(req.payload.challenge, PyNone))
    else if req.payload.kind == Some(EventCallback) then
      var e := req.payload.event.value;
      if e.kind == Some(AppMention) then HandleMention(e)
      else if e.kind == Some(MessageEvent) then HandleMessage(e)
      else Ack
    else Ack
  }

  // ------------------------------------------------------------ processing

  /** The backend conversation of a Slack thread. */
  function ConversationKey(channel: string, anchor: PyVal): string {
    KeyPrefix + channel + "-" + Str(anchor)
  }

  /** Reads a conversation key back into its channel and thread parts,
      taking the channel to end at the first `-` after the prefix. */
  function SplitConversationKey(key: string): Option<(string, string)> {
    if !StartsWith(key, KeyPrefix) then None
    else
      var rest := key[|KeyPrefix|..];
      match IndexOf(rest, "-")
      case None => None
      case Some(k) => Some((rest[..k], rest[k + 1..]))
  }

  /** For a channel id without `-` (Slack ids are alphanumeric), the key
      gives back the channel and the rendered thread timestamp. */
  lemma ConversationKeyRoundTrip(channel: string, anchor: PyVal)
    requires forall i :: 0 <= i < |channel| ==> channel[i] != '-'
    ensures SplitConversationKey(ConversationKey(channel, anchor)) == Some((channel, Str(anchor)))
  {
    var key := ConversationKey(channel, anchor);
    assert StartsWith(key, KeyPrefix);
    var rest := key[|KeyPrefix|..];
    assert rest == channel + "-" + Str(anchor);
    assert OccursAt(rest, "-", |channel|) by {
      assert rest[|channel|..|channel| + 1] == "-";
    }
    forall j | 0 <= j < |channel|
      ensures !OccursAt(rest, "-", j)
    {
      assert rest[j..j + 1] == [channel[j]];
    }
    var k := IndexOf(rest, "-").value;
    assert k == |channel|;
    assert rest[..k] == channel && rest[k + 1..] == Str(anchor);
  }

  /** Two threads share a backend conversation only when they are the same
      channel and render to the same timestamp. */
  lemma ConversationKeyInjective(c1: string, a1: PyVal, c2: string, a2: PyVal)
    requires forall i :: 0 <= i < |c1| ==> c1[i] != '-'
    requires forall i :: 0 <= i < |c2| ==> c2[i] != '-'
    requires ConversationKey(c1, a1) == ConversationKey(c2, a2)
    ensures c1 == c2 && Str(a1) == Str(a2)
  {
    ConversationKeyRoundTrip(c1, a1);
    ConversationKeyRoundTrip(c2, a2);
  }

  /** Keys are built by plain concatenation, so a channel id that contains
      `-` can share a key with another thread. */
  lemma ConversationKeyCollision()
    ensures ConversationKey("a-b", PyStr("c")) == ConversationKey("a", PyStr("b-c"))
    ensures ConversationKey("C1", PyNone) == ConversationKey("C1", PyStr("None"))
  {
  }

  /** `settings["app"]["app_id"]`: the id, or the `KeyError` text of the
      missing key. */
  function AppIdSetting(settings: Settings): Option<string> {
    match settings.app
    case Some(app) => app.appId
    case None => None
  }

  function MissingKeyText(settings: Settings): string {
    if settings.app.None? then "'app'" else "'app_id'"
  }

  /** The history fetch, made only for a truthy anchor. */
  function FetchCalls(channel: string, anchor: PyVal): seq<Call> {
    if Truthy(anchor) then [FetchReplies(channel, anchor)] else []
  }

  /** The backend call: empty inputs, the thread's key, blocking mode and
      the fixed user. */
  function ChatCall(appId: string, text: string, channel: string, anchor: PyVal): Call {
    InvokeChat(appId, text, map[], ConversationKey(channel, anchor), BlockingMode, ChatUser)
  }

  function ApologyCall(channel: string, anchor: PyVal): Call {
    PostMessage(channel, PyStr(Apology), anchor)
  }

  /** The outer error path: the apology is posted to the thread and the
      error is reported in the body. */
  function Failure(calls: seq<Call>, channel: string, anchor: PyVal, detail: string): Outcome {
    Outcome(Response(StatusOk, PlainText(ErrorPrefix + detail)),
            calls + [ApologyCall(channel, anchor)])
  }

  /** The history helper's result, as `_process_and_respond` sees it: the
      helper runs only for a truthy anchor. */
  function FetchedHistory(anchor: PyVal, replies: RepliesOutcome): HistoryResult {
    if Truthy(anchor) then History(replies, anchor) else Fetched([])
  }

  /** `_process_and_respond`: fetch the history of a threaded message, ask
      the backend under the thread's conversation key (the history is not
      passed on), post the answer in the thread, and map every outcome to a
      200 response. */
  function Process(text: string, channel: string, anchor: PyVal, settings: Settings, services: Services): (out: Outcome)
    ensures out.response.status == StatusOk && out.response.body.PlainText?
    ensures out.calls != []
    ensures Truthy(anchor) <==> out.calls[0] == FetchReplies(channel, anchor)
    ensures forall c :: c in out.calls && c.InvokeChat? ==>
              AppIdSetting(settings).Some? &&
              c == InvokeChat(AppIdSetting(settings).value, text, map[], ConversationKey(channel, anchor), BlockingMode, ChatUser)
    ensures forall c :: c in out.calls && c.PostMessage? ==> c.channel == channel && c.threadTs == anchor
    ensures out.response.body.text == AckText ==>
              services.chat.Answered? && services.post.Posted? &&
              out.calls[|out.calls| - 1] == PostMessage(channel, Get(services.chat.answer, PyNone), anchor)
    ensures StartsWith(out.response.body.text, ErrorPrefix) ==>
              out.calls[|out.calls| - 1] == PostMessage(channel, PyStr(Apology), anchor)
    // Each outcome of the external calls, mapped to its body and calls.
    ensures Truthy(anchor) && services.replies.RepliesRaised? ==>
              out.response.body == PlainText(ErrorPrefix + services.replies.msg) &&
              out.calls == FetchCalls(channel, anchor) + [ApologyCall(channel, anchor)]
    ensures !(Truthy(anchor) && services.replies.RepliesRaised?) && AppIdSetting(settings).None? ==>
              out.response.body == PlainText(ErrorPrefix + MissingKeyText(settings)) &&
              out.calls == FetchCalls(channel, anchor) + [ApologyCall(channel, anchor)]
    ensures !(Truthy(anchor) && services.replies.RepliesRaised?) && AppIdSetting(settings).Some? ==>
              var asked := FetchCalls(channel, anchor) + [ChatCall(AppIdSetting(settings).value, text, channel, anchor)];
              match services.chat
              case ChatRaised(m) =>
                out.response.body == PlainText(ErrorPrefix + m) &&
                out.calls == asked + [ApologyCall(channel, anchor)]
              case Answered(answer) =>
                var posted := asked + [PostMessage(channel, Get(answer, PyNone), anchor)];
                match services.post
                case Posted =>
                  out.response.body == PlainText(AckText) && out.calls == posted
                case PostSlackError(m) =>
                  out.response.body == PlainText(SendErrorPrefix + m) && out.calls == posted
                case PostRaised(m) =>
                  out.response.body == PlainText(ErrorPrefix + m) &&
                  out.calls == posted + [ApologyCall(channel, anchor)]
  {
    var fetch := FetchCalls(channel, anchor);
    var history := FetchedHistory(anchor, services.replies);
    if history.Raised? then Failure(fetch, channel, anchor, history.msg)
    else
      match AppIdSetting(settings)
      case None => Failure(fetch, channel, anchor, MissingKeyText(settings))
      case Some(appId) =>
        var asked := fetch + [ChatCall(appId, text, channel, anchor)];
        match services.chat
        case ChatRaised(msg) => Failure(asked, channel, anchor, msg)
        case Answered(answer) =>
          var posted := asked + [PostMessage(channel, Get(answer, PyNone), anchor)];
          match services.post
          case Posted => Outcome(Response(StatusOk, PlainText(AckText)), posted)
          case PostSlackError(msg) =>
            assert (SendErrorPrefix + msg)[0] != ErrorPrefix[0];
            Outcome(Response(StatusOk, PlainText(SendErrorPrefix + msg)), posted)
          case PostRaised(msg) => Failure(posted, channel, anchor, msg)
  }

  /** `_invoke`: the whole request, from headers and payload to the
      response and the external calls. */
  function HandleRequest(req: Request, settings: Settings, services: Services): (out: Outcome)
    requires NoCrash(req, settings)
    ensures out.response.status == StatusOk
    ensures RetrySuppressed(req.headers, settings) ==> out == AckOutcome()
    ensures !RetrySuppressed(req.headers, settings) && req.payload.kind == Some(UrlVerification) ==>
              out == Outcome(Response(StatusOk, ChallengeJson(Get(req.payload.challenge, PyNone))), [])
    ensures req.payload.kind != Some(UrlVerification) && req.payload.kind != Some(EventCallback) ==>
              out == AckOutcome()
    ensures out.response.body.ChallengeJson? ==> out.calls == []
    ensures out.calls != [] ==>
              !RetrySuppressed(req.headers, settings) && req.payload.kind == Some(EventCallback) &&
              req.payload.event.value.kind in {Some(AppMention), Some(MessageEvent)}
    ensures Route(req, settings).Ack? ==> out == AckOutcome()
    ensures Route(req, settings).Respond? ==>
              out == Process(Route(req, settings).text, Route(req, settings).channel,
                             Route(req, settings).anchor, settings, services)
  {
    match Route(req, settings)
    case Ack => AckOutcome()
    case Challenge(token) => Outcome(Response(StatusOk, ChallengeJson(token)), [])
    case Respond(text, channel, anchor) => Process(text, channel, anchor, settings, services)
  }

  // ------------------------------------------------------------ properties

  /** An `event_callback` whose event is neither a mention nor a message is
      acknowledged without any call. */
  lemma OtherEventsIgnored(req: Request, settings: Settings, services: Services)
    requires req.payload.kind == Some(EventCallback) && req.payload.event.Some?
    requires req.payload.event.value.kind !in {Some(AppMention), Some(MessageEvent)}
    ensures HandleRequest(req, settings, services) == AckOutcome()
  {
  }

  /** A message from a bot is acknowledged without any call, so the
      endpoint never answers its own replies. */
  lemma BotMessagesIgnored(req: Request, settings: Settings, services: Services)
    requires req.payload.kind == Some(EventCallback) && req.payload.event.Some?
    requires req.payload.event.value.kind == Some(MessageEvent)
    requires FromBot(req.payload.event.value)
    ensures HandleRequest(req, settings, services) == AckOutcome()
  {
  }

  /** A message outside DM channels and outside threads is acknowledged
      without any call. */
  lemma ChannelChatterIgnored(req: Request, settings: Settings, services: Services)
    requires req.payload.kind == Some(EventCallback) && req.payload.event.Some?
    requires req.payload.event.value.kind == Some(MessageEvent)
    requires !IsDmChannel(req.payload.event.value.channel.GetOr(""))
    requires !Truthy(Get(req.payload.event.value.threadTs, PyNone))
    ensures HandleRequest(req, settings, services) == AckOutcome()
  {
  }

  /** A direct message from a person reaches the backend under the key of
      its channel and its thread (or its own `ts`), once the history fetch
      has not raised and an app id is configured. */
  lemma DirectMessageReachesBackend(req: Request, settings: Settings, services: Services)
    requires !RetrySuppressed(req.headers, settings)
    requires req.payload.kind == Some(EventCallback) && req.payload.event.Some?
    requires req.payload.event.value.kind == Some(MessageEvent)
    requires !FromBot(req.payload.event.value)
    requires IsDmChannel(req.payload.event.value.channel.GetOr(""))
    requires !services.replies.RepliesRaised?
    requires AppIdSetting(settings).Some?
    ensures var e := req.payload.event.value;
            InvokeChat(AppIdSetting(settings).value, e.text.GetOr(""), map[],
                       ConversationKey(e.channel.GetOr(""), MessageAnchor(e)), BlockingMode, ChatUser)
              in HandleRequest(req, settings, services).calls
  {
  }

  /** Once the history fetch has not raised and an app id is configured,
      processing calls the backend with the text under the thread's key. */
  lemma ProcessAsksBackend(text: string, channel: string, anchor: PyVal, settings: Settings, services: Services)
    requires !services.replies.RepliesRaised?
    requires AppIdSetting(settings).Some?
    ensures ChatCall(AppIdSetting(settings).value, text, channel, anchor) in Process(text, channel, anchor, settings, services).calls
  {
    var out := Process(text, channel, anchor, settings, services);
    var asked := FetchCalls(channel, anchor) + [ChatCall(AppIdSetting(settings).value, text, channel, anchor)];
    assert out.calls[..|asked|] == asked;
    assert out.calls[|asked| - 1] == asked[|asked| - 1];
  }

  /** A mention, whatever its channel or thread, reaches the backend with
      its cleaned text under the key of its thread, once the history fetch
      has not raised and an app id is configured. */
  lemma MentionReachesBackend(req: Request, settings: Settings, services: Services)
    requires !RetrySuppressed(req.headers, settings)
    requires req.payload.kind == Some(EventCallback) && req.payload.event.Some?
    requires req.payload.event.value.kind == Some(AppMention)
    requires !services.replies.RepliesRaised?
    requires AppIdSetting(settings).Some?
    ensures var e := req.payload.event.value;
            InvokeChat(AppIdSetting(settings).value, CleanMention(e.text.GetOr("")), map[],
                       ConversationKey(e.channel.GetOr(""), MentionAnchor(e)), BlockingMode, ChatUser)
              in HandleRequest(req, settings, services).calls
  {
    var e := req.payload.event.value;
    var text, channel, anchor := CleanMention(e.text.GetOr("")), e.channel.GetOr(""), MentionAnchor(e);
    assert Route(req, settings) == Respond(text, channel, anchor);
    ProcessAsksBackend(text, channel, anchor, settings, services);
  }

  /** The history changes nothing the backend or the caller sees: two runs
      that differ only in a non-raising history outcome agree. */
  lemma HistoryNotForwarded(text: string, channel: string, anchor: PyVal, settings: Settings,
                            s1: Services, s2: Services)
    requires !s1.replies.RepliesRaised? && !s2.replies.RepliesRaised?
    requires s1.chat == s2.chat && s1.post == s2.post
    ensures Process(text, channel, anchor, settings, s1) == Process(text, channel, anchor, settings, s2)
  {
  }

  /** The two handlers agree on the thread unless `thread_ts` is present
      but falsy, where a mention keeps it and a message falls back to `ts`. */
  lemma AnchorsAgree(e: Event)
    ensures e.threadTs.Missing? || Truthy(e.threadTs.value) ==> MentionAnchor(e) == MessageAnchor(e)
    ensures e.threadTs.Present? && !Truthy(e.threadTs.value) ==>
              MentionAnchor(e) == e.threadTs.value && MessageAnchor(e) == Get(e.ts, PyNone)
  {
  }

  /** The documented example: the mention token and its space go. */
  lemma CleanMentionStripsToken()
    ensures CleanMention("<@U123> hello there") == "hello there"
  {
    var s := "<@U123> hello there";
    assert StartsWith(s, MentionPrefix) by { assert s[..2] == "<@"; }
    assert OccursAt(s, MentionSeparator, 6) by { assert s[6..8] == "> "; }
    forall j | 0 <= j < 6 ensures !OccursAt(s, MentionSeparator, j) {
      assert s[j..j + 2][0] == s[j];
    }
    assert IndexOf(s, MentionSeparator) == Some(6);
    assert s[8..] == "hello there";
  }

  /** Without a `"> "` after the token the text is passed through. */
  lemma CleanMentionKeepsUnterminatedToken()
    ensures CleanMention("<@U123>hello") == "<@U123>hello"
  {
    var s := "<@U123>hello";
    assert ' ' !in s;
    forall j | 0 <= j ensures !OccursAt(s, MentionSeparator, j) {
      if j + 2 <= |s| {
        assert s[j..j + 2][1] == s[j + 1] && s[j + 1] in s;
      }
    }
  }
}
