# Slack events endpoint for a Dify chat app — a Dafny model

The endpoint receives Slack Events API webhooks and relays them to a Dify
chat application. This project models its decision core.

- **Routing.** Redelivered webhooks are dropped when retries are not allowed. The
  `url_verification` handshake is answered. `event_callback` events are
  classified into mentions, messages and everything else.
- **Handlers.** The mention handler strips the leading `<@...>` token. The message
  handler drops bot messages and ordinary channel chatter. Each handler picks
  the thread anchor in its own way.
- **Processing.** The backend conversation key is `slack-<channel>-<thread>`. Every
  outcome of the external calls maps to a webhook response, and the status is
  always 200.
- **Thread history.** The replies of a thread become role/content entries, with
  the anchor message left out.

The Slack Web API (`conversations_replies`, `chat_postMessage`) and the Dify
`chat.invoke` call are not executed. Their results are an input (`Services`).
The model's output is the response together with the ordered list of
external calls the endpoint makes (`Outcome.calls`). Python's dynamic JSON
access is made explicit:

- `Field` tells an absent key from a present one.
- `PyVal` is `None` or a string.
- `Get` is `dict.get` with its default.
- `Truthy` is Python truthiness.
- `Str` is f-string rendering, so `None` renders as `"None"`.

Modules:

- `PyValues` (py_values.dfy): Python values, `dict.get`, truthiness, `str()`.
- `Text` (text.dfy): `startswith`, and first-occurrence search as used by `in` and `split(sep, 1)`.
- `ThreadHistory` (thread_history.dfy): the history helper. It has a specification
  function and the imperative loop, proved equal to it.
- `SlackEndpoint` (slack_endpoint.dfy): router, handlers, conversation key,
  outcome mapping, and the whole request.

Where the code is narrower than its stated design, the model follows the code:

- **Retry reason.** Only the reason `http_timeout` is suppressed, and so is a retry number above 0.
- **Mention anchor.** A mention uses `thread_ts` whenever that key is present, even when its value is
  null or empty. A message falls back to `ts` unless `thread_ts` is truthy (`AnchorsAgree`).
- **History errors.** The history helper catches only `SlackApiError`. Any other exception from
  `conversations_replies` reaches the outer handler: the apology is posted and
  the body reports the error.
- **Answer-post errors.** A non-`SlackApiError` exception from posting the answer also reaches the outer handler.
- **History is unused.** The thread history is fetched but not passed to the backend
  (`HistoryNotForwarded`).

## Model

| member | source | states |
|---|---|---|
| `SlackEndpoint.Route` | endpoints/slack.py:11-48 | A suppressed retry is acknowledged whatever the payload. The handshake is answered exactly for an unsuppressed `url_verification`, with the payload's challenge. An unsuppressed `event_callback` goes to `HandleMention` for `app_mention` and to `HandleMessage` for `message`, and any other event type is acknowledged. A handler runs only in those two cases. |
| `SlackEndpoint.HandleRequest` | endpoints/slack.py:11-48 | Status is always 200. Suppressed retries and payload types other than the handshake and `event_callback` give "ok" with no external call. The handshake gives `{"challenge": c}` with the same `c` and no call. A routed `Ack` gives "ok" with no call. A routed `Respond` gives exactly `Process` of its text, channel and anchor. Any external call implies an unsuppressed mention or message event. |
| `SlackEndpoint.OtherEventsIgnored` | endpoints/slack.py:43-45 | An `event_callback` whose event is neither a mention nor a message gives "ok" and makes no call. |
| `SlackEndpoint.CleanMention` | endpoints/slack.py:54-57 | The cleaned text is always a suffix of the input. Text not starting with `<@`, or without `"> "`, is unchanged. Otherwise the cut ends right after an occurrence of `"> "`, and no earlier occurrence exists. |
| `SlackEndpoint.CleanMentionStripsToken` | endpoints/slack.py:54-57 | `"<@U123> hello there"` is cleaned to `"hello there"`. |
| `SlackEndpoint.CleanMentionKeepsUnterminatedToken` | endpoints/slack.py:56-57 | `"<@U123>hello"`, which has no `"> "`, is passed through unchanged. |
| `Text.IndexFrom` | endpoints/slack.py:57 | The result is the first position at or after `from` where the pattern occurs, or none when it occurs nowhere there. |
| `Text.IndexOf` | endpoints/slack.py:57 | An index is found exactly when the pattern occurs (`sep in s`). The index is an occurrence with none before it (the cut of `split(sep, 1)`). |
| `SlackEndpoint.HandleMention` | endpoints/slack.py:50-64 | A mention is always answered, with text `CleanMention(text)` (`""` if absent), which is a suffix of the event text. It is answered in its channel (`""` if absent). The anchor is `thread_ts` whenever the key is present, else `ts`. |
| `SlackEndpoint.HandleMessage` | endpoints/slack.py:66-88 | The decision is `Ack` or `Respond`. A message is acknowledged exactly when it is from a bot (truthy `bot_id` or subtype `bot_message`), or when it is neither in a `D` channel nor in a thread. Otherwise it is answered with its text, in its thread when `thread_ts` is truthy, else under its own `ts` in a DM channel. |
| `SlackEndpoint.BotMessagesIgnored` | endpoints/slack.py:71-72 | A bot message gives "ok" and makes no call. |
| `SlackEndpoint.ChannelChatterIgnored` | endpoints/slack.py:76-82 | A message outside DM channels and threads gives "ok" and makes no call. |
| `SlackEndpoint.AnchorsAgree` | endpoints/slack.py:61-85 | The mention and message anchors agree when `thread_ts` is absent or truthy. When it is present but falsy, the mention keeps it and the message falls back to `ts`. |
| `SlackEndpoint.ConversationKeyRoundTrip` | endpoints/slack.py:105 | For a channel id without `-`, the key splits back into the channel and the rendered anchor. |
| `SlackEndpoint.ConversationKeyInjective` | endpoints/slack.py:105 | For channel ids without `-`, equal keys mean the same channel and the same rendered anchor. |
| `SlackEndpoint.ConversationKeyCollision` | endpoints/slack.py:105 | The key is plain concatenation. A channel containing `-` can collide with another thread, and a `None` anchor renders like the string `"None"`. |
| `SlackEndpoint.Process` | endpoints/slack.py:90-151 | Status is always 200 with a plain-text body. Each outcome maps to its body and its exact calls. The history fetch is made first, exactly when the anchor is truthy; if it raises, the body is `"An error occurred: " + msg` and the apology follows. A missing `app`/`app_id` gives `"An error occurred: 'app'"`/`"An error occurred: 'app_id'"` and the apology, with no backend call. Otherwise the backend is called with the app id, the text, empty inputs, `ConversationKey(channel, anchor)`, blocking mode and `slack-user`. If the backend raises, the body is `"An error occurred: " + msg` and the apology follows. If it answers, the answer is posted to the thread: "ok" when posted, `"Error sending message to Slack: " + msg` with no apology on a `SlackApiError`, and `"An error occurred: " + msg` plus the apology on any other error. Conversely, "ok" means the answer was posted last and an error body means the apology was posted last. |
| `SlackEndpoint.DirectMessageReachesBackend` | endpoints/slack.py:84-115 | A DM from a person reaches the backend with key `slack-<channel>-<thread_ts or ts>`, provided the history fetch did not raise and an app id is configured. |
| `SlackEndpoint.ProcessAsksBackend` | endpoints/slack.py:97-115 | When the history fetch does not raise and an app id is set, the backend call with the text, the thread's key, empty inputs, blocking mode and `slack-user` is among the calls. |
| `SlackEndpoint.MentionReachesBackend` | endpoints/slack.py:37-39 | An unsuppressed mention, in any channel or thread, reaches the backend with its cleaned text and key `slack-<channel>-<thread_ts if present, else ts>`, provided the history fetch did not raise and an app id is configured. |
| `SlackEndpoint.HistoryNotForwarded` | endpoints/slack.py:98-115 | Two runs that differ only in a non-raising history outcome give the same response and the same calls. |
| `ThreadHistory.GetThreadHistory` | endpoints/slack.py:153-179 | The loop's result equals the specification `History`. A `SlackApiError` gives `[]`. Only a non-Slack exception escapes. The history is no longer than the replies. |
| `ThreadHistory.FormatHistoryAppend` | endpoints/slack.py:164-174 | The history of `a + b` is the history of `a` followed by that of `b`, so order is preserved. |
| `ThreadHistory.FormatHistoryLength` | endpoints/slack.py:164-176 | Exactly the anchor messages are dropped, so the history is no longer than the replies. |
| `ThreadHistory.FormatHistorySources` | endpoints/slack.py:164-176 | Each entry comes from a non-anchor message, at strictly increasing positions. Every non-anchor message contributes one. |
| `ThreadHistory.EntryRole` | endpoints/slack.py:170-174 | The role is `"assistant"` exactly when `bot_id` is truthy, else `"user"`. The content is the text, `""` when absent. |

## Left out

- The Slack `WebClient` and the `bot_token` setting it is built from: outbound calls are inputs (`Services`), not performed.
- `print` and `traceback.format_exc` logging: side effects only.
- The text of exception messages: each failing outcome carries its `str(e)` as a parameter. For a missing `app` or `app_id` setting, the text is Python's `KeyError` rendering (`'app'`, `'app_id'`).
- werkzeug `Request`/`Response` objects, `get_json` decoding and `json.dumps`: the payload is already decoded, and the challenge body is the `ChallengeJson` value rather than its serialised text. Content types are not modelled.
- A non-numeric `X-Slack-Retry-Num` makes `int(...)` raise outside any handler (endpoints/slack.py:18). The header is modelled as an already-parsed integer.
- An `event_callback` payload without `event` makes `event.get` raise outside any handler (endpoints/slack.py:34-37). `NoCrash` excludes it.
- A null `text` is not representable, since `text` is a string when present. In a mention, `message.startswith` raises outside any handler (endpoints/slack.py:56). In a message, `None` is passed on as the backend query (endpoints/slack.py:84, 110).
- A null `channel` is not representable, since `channel` is a string when present. In a message, `channel.startswith` raises outside any handler (endpoints/slack.py:77). In a mention, `None` flows on: the history fetch and the posts go to channel `None`, and the key is `slack-None-<anchor>` (endpoints/slack.py:60, 105).
- A `settings["app"]` that is not a mapping is not representable, since `app` is either absent or a mapping. In the source, the `TypeError` is raised inside the outer `try` and caught by `except Exception` (endpoints/slack.py:109, 132). The apology is posted and the body is "An error occurred: " with the error text, the same shape as `Process`'s missing-key path.
- A `conversations_replies` result whose `messages` is null is not representable as `RepliesOk`. Iterating it raises `TypeError` (endpoints/slack.py:165), which `_get_thread_history` does not catch. It reaches the outer handler, which is what `RepliesRaised` with that error text models.
- A non-`SlackApiError` exception raised by the apology post escapes the handler (endpoints/slack.py:137-145).
- The result of the apology post: a `SlackApiError` there is swallowed, so it changes nothing the model observes.
