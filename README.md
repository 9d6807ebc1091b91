# Twitter monitoring bridge: a Dafny model

The service receives SocialData webhook events about monitored Twitter accounts. It turns each event into one HTML notification, which goes to a Telegram chat as is and to a Discord channel with the tags stripped. It also runs a Telegram bot through which allowed operators create, list, inspect and delete the upstream monitors.

This project models three parts of the service:

- the webhook controller that formats and fans out an event (`webhook.dfy`, with the tag strip in `html.dfy`);
- the monitor manager that maps a type string to a registry call (`monitor_manager.dfy`);
- the Telegram bot (`telegram.dfy`): its allow-list gate, the `/start` menu, the callback and message handlers, and the per-chat table of pending conversations.

Supporting modules:

- `wrappers.dfy` holds `Option` and `Result`.
- `text.dfy` holds the JavaScript string and array operations the code relies on: `||` on optional strings, template interpolation of `undefined`, `startsWith`, `includes`, `toLowerCase` and `join`.
- `registry.dfy` describes the SocialData registry. It is an oracle: a datatype of total functions from each endpoint's arguments to the answer or the thrown error. Every operation that talks to it returns the trace of calls it made.

Modelling choices:

- Optional JSON fields are `Option`s. `Truthy` treats an empty string as absent, as `||` and `if (x)` do.
- The notification text is built from typed lines (`Webhook.Line`). Each line renders exactly as the corresponding append in the controller, and `Webhook.ProcessWebhook` performs the appends one at a time.
- The Telegram replies are values that name the message and carry its variable fields: ids, handles, button tokens and error messages.
- The bot is a class. Its field `conversations` is the `userConversations` dictionary, which the handlers update in place.

A text that starts with `/` while a step is pending is skipped, and the pending step stays in place: the message handler (src/services/telegramService.js:217) tests for the prefix before it reads or deletes the chat's entry. `Telegram.TelegramBot.OnMessage` states that the table is then unchanged.

## Model

| member | source | states |
|---|---|---|
| Text.Truthy | src/controllers/webhookController.js:60 | JavaScript truthiness of an optional string, as `if (x)` and `\|\|` test it: present and not empty. No contract of its own |
| Text.Shown | src/controllers/webhookController.js:55 | template interpolation of an optional string: its value, or `undefined` when it is absent. No contract of its own |
| Text.Or | src/controllers/webhookController.js:15-16 | `a \|\| b` on optional strings is `a` when `a` is truthy and `b` otherwise, and it is truthy exactly when one of them is |
| Text.OrElse | src/controllers/webhookController.js:57-59 | `x \|\| "default"`: the value when it is truthy, and the default otherwise. No contract of its own |
| Text.StartsWith | src/services/telegramService.js:217 | `s.startsWith(p)`: `p` is a prefix of `s`. No contract of its own |
| Text.Contains | src/services/telegramService.js:245 | `s.includes(t)` holds exactly when `t` occurs in `s` at some position |
| Text.Includes | src/services/telegramService.js:18 | `Array.includes` is exactly sequence membership |
| Text.Lower | src/services/telegramService.js:145 | lower-casing keeps the length and maps each character on its own (ASCII `A`-`Z` to `a`-`z`) |
| Text.LowerIdempotent | src/services/telegramService.js:256 | lower-casing twice is lower-casing once, so a handle already lower-cased matches itself (used by `Telegram.DuplicateOfferResolves`) |
| Text.Join | src/controllers/webhookController.js:34-36 | `xs.join(sep)`: the items in order with `sep` between neighbours. No contract of its own; `JoinSnoc` states how it grows |
| Text.PrefixEach | src/controllers/webhookController.js:35 | `xs.map((x) => p + x)`: each item with the prefix, in order. No contract of its own |
| Text.JoinSnoc | src/controllers/webhookController.js:34-36 | `join(", ")` keeps the items in order: one more item appends one separator and that item |
| Html.IndexOf | src/controllers/webhookController.js:98 | the position found is the first occurrence of the character, and none is found exactly when it is absent |
| Html.IsTag | src/controllers/webhookController.js:98 | a text is a word of `<[^>]+>`: `<`, one or more characters other than `>`, then `>`. No contract of its own; `TagAtStart` and `NoTagOpensIff` are stated in its terms |
| Html.HasTag | src/controllers/webhookController.js:98 | the regular expression has a match somewhere in the text: some substring is a word of `<[^>]+>`. No contract of its own |
| Html.NoTagOpensIff | src/controllers/webhookController.js:98 | a text holds a match of `<[^>]+>` exactly when some `<` in it is followed by a non-empty run of non-`>` characters and a `>` |
| Html.TagAtStart | src/controllers/webhookController.js:98 | a match found at the start is a word of `<[^>]+>` ending at the first `>`; there is none exactly when the text does not open with `<`, a non-`>`, and a later `>` |
| Html.StripTags | src/controllers/webhookController.js:98 | the global replace of `<[^>]+>` by nothing: a scan from the left that drops each match found at the current position and keeps any other character. It has no contract of its own; the `StripTags` lemmas below state its properties |
| Html.StripTagsLeavesNoTag | src/controllers/webhookController.js:96-98 | the Discord text contains no match of `<[^>]+>` at all |
| Html.StripTagsIdempotent | src/controllers/webhookController.js:98 | stripping the stripped text changes nothing |
| Html.StripTagsFixpoint | src/controllers/webhookController.js:98 | the strip leaves a text unchanged exactly when the text holds no match |
| Html.StripTagsShrinks | src/controllers/webhookController.js:98 | the strip never lengthens a text |
| Html.StripTagsKeepsOut | src/controllers/webhookController.js:98 | the strip introduces no character that was not in its input |
| Html.StripTagsDropsTag | src/controllers/webhookController.js:98 | a leading `<name>` with a non-empty name without `>` is removed whole, and the rest is stripped on its own |
| Html.StripTagsKeepsPlain | src/controllers/webhookController.js:98 | a leading text without `<` passes through unchanged |
| Webhook.Render | src/controllers/webhookController.js:21-78 | the exact text of each append, one case per template. It has no contract of its own; `StripBold`, `PlainBoldLine` and `PlainMonitorIdLine` state how the HTML renderings strip |
| Webhook.RenderAll | src/controllers/webhookController.js:21-78 | the `message +=` chain: the rendered lines concatenated in order. No contract of its own; `Append` and `RenderAllSnoc` state how it grows |
| Webhook.TweetHandle | src/controllers/webhookController.js:17-18 | the author handle is `user.screen_name` when present and non-empty, and `unknown` otherwise |
| Webhook.TweetUrl | src/controllers/webhookController.js:19 | the status link `https://twitter.com/<handle>/status/<id_str>`. No contract of its own |
| Webhook.MentionsOf | src/controllers/webhookController.js:29-33 | `entities.user_mentions`, or no mentions when `entities` or the array is missing. No contract of its own |
| Webhook.TweetBase | src/controllers/webhookController.js:15-26 | the four lines every tweet notification starts with: header with the handle, text with its fallbacks, status link and creation time. No contract of its own; `TweetLinesBase` states its contents |
| Webhook.HashtagsOf | src/controllers/webhookController.js:41-45 | `entities.hashtags`, or no hashtags when `entities` or the array is missing. No contract of its own |
| Webhook.MentionNames | src/controllers/webhookController.js:34-36 | one name per mention, in order, each the mention's `screen_name` as interpolated |
| Webhook.HashtagNames | src/controllers/webhookController.js:46-48 | one name per hashtag, in order, each the hashtag's `text` as interpolated |
| Webhook.TweetLines | src/controllers/webhookController.js:13-50 | the lines of the `new_tweet` branch: the four base lines, then the optional mentions and hashtags lines. Its contents are stated by `TweetLinesBase`, `TweetLinesMentions`, `TweetLinesHashtags` and `TweetLinesNoMonitorId` |
| Webhook.TweetLinesBase | src/controllers/webhookController.js:15-26 | a tweet notification has four to six lines and starts with header, text, link and creation time, with the `user.screen_name`/`unknown`, `full_text`/`text`/default and `tweet_created_at`/`created_at` fallbacks |
| Webhook.TweetLinesNoMonitorId | src/controllers/webhookController.js:13-50 | no line of the `new_tweet` branch is a monitor-id line |
| Webhook.MentionsTextSnoc | src/controllers/webhookController.js:34-36 | the mentions text keeps the order of the mentions: one more mention appends `, @` and its name |
| Webhook.TweetLinesMentions | src/controllers/webhookController.js:28-38 | a mentions line exists exactly when there are mentions, and it lists every mention's name in order |
| Webhook.TweetLinesHashtags | src/controllers/webhookController.js:40-50 | a hashtags line exists exactly when there are hashtags, and it lists every hashtag in order |
| Webhook.FollowingLines | src/controllers/webhookController.js:51-64 | the lines of the `new_following` branch, in append order. Its contents are stated by `FollowingLinesContents` |
| Webhook.FollowingLinesContents | src/controllers/webhookController.js:51-64 | a following notification has name, handle and description (default "No description"). The link line appears exactly when `url` is truthy, followers and following come last, and no line is a monitor-id line |
| Webhook.ProfileLines | src/controllers/webhookController.js:65-72 | the lines of the `profile_update` branch, in append order. Its contents are stated by `ProfileLinesContents` |
| Webhook.ProfileLinesContents | src/controllers/webhookController.js:65-72 | a profile notification has name, bio and location with their defaults. The website line appears exactly when `url` is truthy, and no line is a monitor-id line |
| Webhook.KnownEvent | src/controllers/webhookController.js:13-65 | the `event ===` tests of lines 13, 51 and 65: `new_tweet`, `new_following` or `profile_update`. No contract of its own |
| Webhook.EventBody | src/controllers/webhookController.js:13-75 | the branch chosen by `event`. It fails exactly for a known kind without `data`, and any other event gives the single "received" line |
| Webhook.EventBodyLines | src/controllers/webhookController.js:13-75 | every branch that succeeds writes at least one line, and none of them is a monitor-id line |
| Webhook.Layout | src/controllers/webhookController.js:10-78 | formatting fails exactly when `meta` is missing or a known kind lacks `data`. Otherwise the last line, and only the last, carries `meta.monitor_id`; the lines before it are those of the event's kind; an unknown event gives just the "received" line |
| Webhook.Message | src/controllers/webhookController.js:10-78 | there is a notification text exactly when `meta` is present and a known kind has `data` |
| Webhook.MessageEndsWithMonitorId | src/controllers/webhookController.js:77-78 | every notification ends with the "Monitor ID:" caption followed by the monitor id |
| Webhook.StripBold | src/controllers/webhookController.js:98 | a bold caption loses both of its tags on Discord |
| Webhook.PlainBoldLine | src/controllers/webhookController.js:98 | a line made of plain text, a bold caption and plain text reads on Discord as the same text without tags |
| Webhook.PlainMonitorIdLine | src/controllers/webhookController.js:78 | on Discord the monitor id line reads `\nMonitor ID: <id>` when the id holds no `<` |
| Webhook.TweetLayout | src/controllers/webhookController.js:13-78 | a `new_tweet` event with data and meta lays out as its tweet lines followed by the monitor-id line |
| Webhook.PlainTweetLines | src/controllers/webhookController.js:13-50 | a tweet with only a non-empty `text`, a named user and an id gives header, that text, the status link and an `undefined` creation time, and nothing else |
| Webhook.PlainTweetLayout | src/controllers/webhookController.js:13-78 | the whole layout of such a tweet: those four lines and the monitor id |
| Webhook.ExampleTweet | src/controllers/webhookController.js:13-27 | the tweet "hello" by alice with status 42 and monitor m1 gives the expected lines, including the `undefined` creation time |
| Webhook.Append | src/controllers/webhookController.js:21-22 | one `message +=` appends one rendered line |
| Webhook.TweetBaseMessage | src/controllers/webhookController.js:15-26 | the first four appends of the `new_tweet` branch build the text of its first four lines |
| Webhook.TweetMessage | src/controllers/webhookController.js:15-50 | the appends of the `new_tweet` branch build the text of `TweetLines` |
| Webhook.FollowingMessage | src/controllers/webhookController.js:53-64 | the appends of the `new_following` branch build the text of `FollowingLines` |
| Webhook.ProfileMessage | src/controllers/webhookController.js:66-72 | the appends of the `profile_update` branch build the text of `ProfileLines` |
| Webhook.FormatMessage | src/controllers/webhookController.js:10-78 | the branch on `event` and the final monitor-id append produce the text of `Message`, and nothing exactly when `meta` is missing or a known kind lacks `data` |
| Webhook.ProcessWebhook | src/controllers/webhookController.js:6-114 | answers 200 exactly when `Message` gives a text, and 500 with no send otherwise. It sends that text to Telegram, whose failure is recorded and does not stop the run, then the text with its tags stripped, which contains no tag, to Discord |
| MonitorManager.ParseKind | src/services/monitorManager.js:6-12 | a type string selects a kind exactly when it is that kind's name |
| MonitorManager.ParseKindName | src/services/monitorManager.js:6-12 | each kind's name selects that kind |
| Registry.KindName | src/services/monitorManager.js:7-12 | the type string of each creatable kind: `user_tweets`, `user_following`, `user_profile` (also the suffix of the `start_monitor_` buttons, src/services/telegramService.js:99-103). No contract of its own; `ParseKindName` states that it parses back |
| MonitorManager.CreateMonitor | src/services/monitorManager.js:4-22 | each of the three types makes exactly one creation call of its kind with `params` unchanged and returns its answer or error. `pump_fun` returns the fixed refusal and calls nothing; any other type fails with "Invalid monitor type" and calls nothing |
| MonitorManager.DeleteMonitor | src/services/monitorManager.js:24-31 | forwards the id unchanged in one call and returns the registry's answer or error |
| MonitorManager.GetMonitorDetails | src/services/monitorManager.js:33-40 | forwards the id unchanged in one call and returns the registry's answer or error |
| MonitorManager.ListMonitors | src/services/monitorManager.js:42-49 | forwards the page unchanged in one call and returns the registry's answer or error |
| Telegram.IsUserAllowed | src/services/telegramService.js:17-19 | a user is allowed exactly when it has a username and that username is in the allow-list |
| Telegram.DecodeCallback | src/services/telegramService.js:67-189 | the handler's chain of tests on `callback_data`, in source order, with the handle after a `view_monitor_` or `delete_monitor_` prefix. It has no contract of its own; `CallbackRoundTrip` and `CallbackTokenRoundTrip` relate it to `EncodeCallback` |
| Telegram.EncodeCallback | src/services/telegramService.js:39-46 | the `callback_data` the bot puts on each button: the main menu, the type submenu (lines 75-85) and the duplicate offer (lines 256-260). It has no contract of its own; the round-trip lemmas relate it to `DecodeCallback` |
| Telegram.CallbackRoundTrip | src/services/telegramService.js:67-189 | every button token the bot emits is decoded by the handler's chain of tests as the action it was made for |
| Telegram.CallbackTokenRoundTrip | src/services/telegramService.js:67-189 | every token the handler recognises is exactly the button token of the action it is decoded as |
| Telegram.MenusDecode | src/services/telegramService.js:35-47 | every `/start` menu button reaches a handled branch, and the three submenu buttons select the three kinds |
| Telegram.EntryOf | src/services/telegramService.js:121-125 | the listing line of one monitor: its handle, or "N/A" when `parameters.user_screen_name` is missing or empty, its type and its creation time. It has no contract of its own |
| Telegram.Entries | src/services/telegramService.js:120-126 | the listing lines of all monitors in list order; `BuildEntries` is proved to produce them |
| Telegram.BuildEntries | src/services/telegramService.js:119-126 | the `forEach` produces one listing line per monitor, in order, with "N/A" for a missing handle |
| Telegram.ListOutcome | src/services/telegramService.js:116-130 | listing makes one list call and replies with the error notice, "no active monitors" exactly when there are none, or every monitor's line in order |
| Telegram.HasHandle | src/services/telegramService.js:279-282 | the `find` predicate, also at lines 142-145 and 166-168: the monitor has a non-empty `parameters.user_screen_name` whose lower-cased form is the key. No contract of its own |
| Telegram.Listed | src/services/telegramService.js:139-141 | the monitors of the listing: the `data` array when the list call resolves with one, and nothing otherwise. No contract of its own; `LookupByHandle` is stated in its terms |
| Telegram.FindByHandle | src/services/telegramService.js:141-146 | `find` returns the first monitor whose handle lower-cases to the key, and nothing exactly when no monitor has it |
| Telegram.LookupByHandle | src/services/telegramService.js:140-146 | a found monitor is the first in the listing with that handle, and a listed monitor with that handle is always found. Nothing is found exactly when the listing has data and no monitor matches. The lookup fails exactly when the listing has no data: a registry error fails with its message, and a listing without `data` with the `find` error |
| Telegram.ViewOutcome | src/services/telegramService.js:137-159 | viewing makes only the list call; it shows the found monitor's details, or "no monitor found" for the handle, or the error notice |
| Telegram.DeleteOutcome | src/services/telegramService.js:160-197 | deleting lists first. It deletes the found monitor's id, in a second call made exactly when a monitor was found. It confirms exactly when that delete succeeds and gives the error notice when it fails. A miss replies "no monitor found" for the handle, and a failed lookup gives the error notice |
| Telegram.CallbackOutcome | src/services/telegramService.js:66-198 | callbacks never create monitors or fetch details by id. Only a `delete_monitor_` callback deletes, and only list, view and delete callbacks call the registry; those three answer as `ListOutcome`, `ViewOutcome` and `DeleteOutcome`. The submenu button offers the three type buttons, the three prompting buttons ask for a handle or an id, `pump_fun_disabled` gives the refusal notice and any other token "unknown command" |
| Telegram.CallbackTable | src/services/telegramService.js:97-136 | the three prompting callbacks record the matching pending step (with the chosen kind) for the chat; every other callback, and every other chat, is left as it was |
| Telegram.Consumes | src/services/telegramService.js:217 | a text completes the chat's pending step exactly when the chat has an entry and the text does not start with `/`. No contract of its own |
| Telegram.MessageTable | src/services/telegramService.js:216-319 | a consumed message removes the chat's pending step; otherwise the table is unchanged, and other chats never change |
| Telegram.HandleParams | src/services/telegramService.js:223-226 | the creation parameters of a conversation: `{ user_screen_name: text }` and nothing else. No contract of its own |
| Telegram.IsDuplicate | src/services/telegramService.js:241-245 | the "already exists" test on a thrown error: `response.data.message` is present, non-empty and contains "already exists". No contract of its own |
| Telegram.DuplicateButtons | src/services/telegramService.js:256-260 | the `callback_data` of the two buttons offered for an existing monitor: view and delete of the lower-cased text. No contract of its own; `DuplicateOfferResolves` states what they decode to |
| Telegram.StartMonitorInput | src/services/telegramService.js:220-274 | the typed text is the handle of exactly one creation call of the pending kind. The reply confirms with the new id, rejects a response without data, or reports the error. For an "already exists" error it offers view and delete buttons for the lower-cased handle |
| Telegram.StopMonitorInput | src/services/telegramService.js:275-316 | the typed handle is lower-cased and looked up. An extra delete call is made exactly when a monitor was found, and its id is the found monitor's. The reply confirms a successful delete, or reports the delete's error message. A miss replies "no monitor found" with the text as typed, and a failed lookup reports its message |
| Telegram.MonitorDetailsInput | src/services/telegramService.js:294-316 | the typed text is sent unchanged as the id in one details call. The reply shows the returned record, or says the details are unavailable, or reports the error |
| Telegram.InputOutcome | src/services/telegramService.js:218-313 | the pending step decides what a typed text does. Each step makes one or two registry calls, and only a pending `stop_monitor` lists monitors |
| Telegram.StopIgnoresCase | src/services/telegramService.js:278-283 | two handles that agree up to case stop the same monitor with the same calls |
| Telegram.DuplicateOfferResolves | src/services/telegramService.js:247-267 | the duplicate offer's buttons decode to a view and a delete of the lower-cased handle. That delete makes the same calls as stopping the typed handle, and so does stopping the lower-cased handle |
| Telegram.TelegramBot.constructor | src/services/telegramService.js:10-11 | the bot starts with no pending conversation |
| Telegram.TelegramBot.OnStart | src/services/telegramService.js:22-51 | the handler answers exactly the texts that contain `/start`, with the main menu for an allowed user and the refusal otherwise; it changes no state |
| Telegram.TelegramBot.OnCallback | src/services/telegramService.js:54-199 | a user who is not allowed gets the refusal, with no call and no state change. Otherwise the table becomes `CallbackTable`, and the reply and calls are those of `CallbackOutcome` for the decoded token |
| Telegram.TelegramBot.OnMessage | src/services/telegramService.js:202-320 | a user who is not allowed gets the refusal, with no call and no state change. Without a pending step, or for a `/` command, nothing is sent or called. Otherwise the pending step decides the reply and calls, and the chat's entry is removed |

## Left out

- Logging, the Express app and its routes, and the HTTP clients of SocialData, Telegram and Discord are not modelled. The registry is an oracle, and a Telegram send is a boolean input.
- Webhook.ProcessWebhook: the 500 body's `message` (the thrown error's text) is not carried, only its status.
- Webhook.ProcessWebhook: the Discord send is always recorded as delivered. `sendDiscordMessage` catches its own errors, so the controller cannot observe a failure. The case where the channel fetch returns nothing is not modelled.
- Telegram.TelegramBot.OnCallback: every bot reply is assumed to be sent. In the source a rejected send in the `stop_monitor` or `monitor_details` branch (src/services/telegramService.js:111-115, 132-136) throws before the table write. The chat then keeps its old entry and gets the error notice instead.
- Telegram.TelegramBot.OnMessage: every bot reply is assumed to be sent. A message whose `text` is undefined while a step is pending makes `startsWith` throw outside any `try`; it is modelled as no reply and no change.
- Telegram.IsUserAllowed: the allow-list is a constructor argument. `config.allowedTelegramUsers` is read at src/services/telegramService.js:18 but src/config/config.js does not define it.
- `answerCallbackQuery`, the inline-keyboard layout, the emoji and wording of the replies, and their HTML are left out. Replies are values carrying their variable fields and button tokens.
- Text.Lower: only ASCII letters are lower-cased. JavaScript's `toLowerCase` also folds other Unicode letters.
- The bot's `/start` handler and its message handler both run for a text such as `/start`. Each is modelled as its own step, and the interleaving of concurrent asynchronous handlers is not modelled: each handler invocation is one atomic step.
- The follower and friend counts are carried as the text they interpolate to, not as numbers.
- Registry records always have an id, a type and a creation time. For a record without `parameters`, the screen name is absent.
- The optional `webhook_url` that the SocialData client adds to a creation request, and the client's HTTP calls, are not part of this model. The pump.fun refusal is the fixed value `Registry.PumpFunResponse`.
- The Telegram service's `formatMessage` and `sendTelegramMessage` (src/services/telegramService.js:14, 323-334) are not modelled on their own. The first returns its text unchanged; the second sends it, logs the result or the error, and throws the error again.
