# Reddit-to-Discord distribution, modelled in Dafny

This project models the core of the bot's distribution service, `RedditService`. The service takes every Discord text channel whose topic names a subreddit and fetches that subreddit's top submissions. It sorts each submission into one of five content types (Gallery, Image, Video, Selftext, Unknown) and posts it through the renderer registered for that type. When that renderer reports `Error`, the plain-text renderer is called inside the `try`. When the registered renderer throws, or that plain-text call throws, the `catch` calls the plain-text renderer again. Only a throw of the `catch` call escapes: it ends the channel's loop, and the channel gets one diagnostic embed. A failed fetch gets the channel the same embed. The selftext renderer (`sendSubmissionAsContentText`) is modelled, with its send taken to succeed: it refuses adult or spoiler items and texts longer than 2000 UTF-16 units, and otherwise posts the bold title over a fenced markdown block.

Files:

- `wrappers.dfy`: `Option` and `Result`.
- `js_string.dfy`: the JavaScript string operations the code relies on. These are `trimEnd`, with ECMAScript's white-space set, `includes`, and `length` counted in UTF-16 code units.
- `submission.dfy`: the submission record, the five content types with their precedence rank, the renderers and the three ways a renderer call can end (`Success`, `Error`, `Throw`).
- `chat.dfy`: the messages a channel receives, and `Channel`, a class whose `log` field is everything sent to it.
- `content_text.dfy`: the selftext renderer as a pure function returning the message or the rejection.
- `reddit_service.dfy`: the service itself, in two layers. Specification functions (`GetSubmissionType`, `GetSubmissionActionMap`, `IsEligible`, `NextStep`, `DispatchSubmission`, `DispatchAll`, `ChannelMessages`) say what a channel receives. The class `RedditService` holds the step-by-step methods, each proved to append exactly that to the channel's `log`. Lemmas state the distribution guarantees.

Code the model cannot see is passed in as total functions, bundled in `Collaborators`:

- the image-URL heuristic `isUrlAnImage`;
- the feed query `getTop`, which receives the channel and its topic, and fails or returns submissions;
- `render`, the outcome of a call of an unseen renderer (image, video, gallery, plain text). It receives the call site, which is the channel, the item's position in the fetched list and the step (the registered renderer, the plain-text call in the `try`, or the one in the `catch`). It also receives the renderer and the item. So the same item can end differently in another channel or at another step.

A renderer call posts one message exactly when it succeeds. For the unseen renderers that message is `Posted(renderer, item)`.

Behaviour of the code worth knowing, which the model keeps:

- Eligibility tests only the space character. The code asks whether `topic.trimEnd()` contains `' '`. So a topic with an inner tab (`"cats\tdogs"`) takes part, and so does a topic made of white space only (`"   "`).
- The code starts each channel's processing without awaiting it, and reports statistics straight away. The model runs channels one after another.
- The diagnostic embed's send is not awaited either, so its failure is never handled.
- The 2000-unit guard of the selftext renderer measures the selftext alone. The message it posts is the title, the selftext and 15 units of markup, so a text of up to 2000 units can pass the guard and still give a message of more than 2000 units (any selftext longer than 1985 − |title| units), which a chat platform whose message-length limit is that same 2000 would refuse. The model posts it anyway, because it takes `channel.send` to succeed (see "## Left out").
- The selftext renderer resolves to a chat message rather than to a result value. Since that message is never equal to `Error`, a selftext post that goes through counts as a success.

## Model

| member | source | states |
|---|---|---|
| JsString.TrimEnd | libs/sdk/src/lib/services/reddit.service.ts:37 | `trimEnd` keeps a prefix of the topic that is empty or ends in a non-white-space character, and everything it cuts off is white space |
| JsString.NoSpaceAfterTrimEnd | libs/sdk/src/lib/services/reddit.service.ts:37 | the trimmed topic has no space exactly when every space in the topic lies in its trailing white space |
| JsString.Includes | libs/sdk/src/lib/services/reddit.service.ts:90 | `includes` holds exactly when the part occurs in the string at some position |
| JsString.Utf16Length | libs/sdk/src/lib/reddit/submission-types/content-text.ts:16 | `length` counts UTF-16 code units: at least one and at most two per character |
| JsString.Utf16LengthOfBmpText | libs/sdk/src/lib/reddit/submission-types/content-text.ts:16 | on text without astral characters, `length` is the number of characters |
| ContentText.Layout | libs/sdk/src/lib/reddit/submission-types/content-text.ts:20-22 | the posted text is `**title**`, a line break, then the selftext fenced as a `md` block; each part sits at a fixed offset, and the length is 15 plus both parts |
| ContentText.SendSubmissionAsContentText | libs/sdk/src/lib/reddit/submission-types/content-text.ts:4-23 | it posts exactly when the item is neither adult nor spoiler and its text is at most 2000 units. An adult or spoiler item is refused for that reason even when it is too long. A too-long item is refused for length. What it posts is `Layout(title, selftext)` |
| ContentText.LengthLimitBoundary | libs/sdk/src/lib/reddit/submission-types/content-text.ts:16-18 | a text of exactly 2000 units is posted; one of 2001 units is refused as too long |
| ContentText.AstralCharacterCountsTwice | libs/sdk/src/lib/reddit/submission-types/content-text.ts:16-18 | a 2000-character text that holds an astral character is refused, because JavaScript counts that character twice |
| RedditService.GetSubmissionType | libs/sdk/src/lib/services/reddit.service.ts:89-95 | the type returned matches its own rule, and no type of higher precedence (Gallery > Image > Video > Selftext > Unknown) matches |
| RedditService.ClassifierPrecedence | libs/sdk/src/lib/services/reddit.service.ts:89-95 | a type is the classification exactly when its rule matches and no earlier rule does. A URL containing "gallery" gives Gallery whatever the other fields say. Selftext is chosen exactly when no earlier rule matched and the text is not empty. Unknown is chosen exactly when no rule matched |
| RedditService.GetSubmissionActionMap | libs/sdk/src/lib/services/reddit.service.ts:76-87 | every content type has a renderer, and it is the renderer registered for that type. Unknown gets the plain-text renderer |
| RedditService.IsEligible | libs/sdk/src/lib/services/reddit.service.ts:37-39 | a topic takes part exactly when it is present and not empty, and every space in it lies inside its trailing white space |
| RedditService.EligibilityExamples | libs/sdk/src/lib/services/reddit.service.ts:37-39 | "cats" and "cats  " take part. "cats dogs", "" and a missing topic do not. "cats\tdogs" and "   " do |
| RedditService.Invoke | libs/sdk/src/lib/services/reddit.service.ts:64-72 | a renderer call posts exactly when it succeeds, and never posts the diagnostic embed. An unseen renderer ends as its collaborator says, and on success it posts the item through that renderer. The selftext renderer succeeds exactly when it accepts the item, and then posts its markdown. When it refuses the item, it throws |
| RedditService.NextStep | libs/sdk/src/lib/services/reddit.service.ts:61-73 | an `Error` of the registered renderer leads to the plain-text call inside the `try`. A throw of either call in the `try` leads to the `catch` call. Otherwise the method returns, and it always returns after the `catch` call |
| RedditService.DispatchFrom | libs/sdk/src/lib/services/reddit.service.ts:61-73 | from a given step, the item gets one call and at most as many more as steps remain: two after the registered renderer, one after the plain-text call in the `try`, none after the `catch` |
| RedditService.DispatchSubmission | libs/sdk/src/lib/services/reddit.service.ts:55-74 | one item gets one to three calls, and the first goes to the renderer registered for its type |
| RedditService.FallbackCalls | libs/sdk/src/lib/services/reddit.service.ts:61-73 | every call is on the item, and every call after the first is a plain-text call. The first call is the only one exactly when it succeeds. After a throw, exactly one more call follows, the `catch` one. After an `Error`, a third call follows exactly when the second throws. No call follows a success. An error escapes exactly when the last of two or three calls throws |
| RedditService.UnknownErrorSendsTextTwice | libs/sdk/src/lib/services/reddit.service.ts:62-69 | an Unknown item whose plain-text call reports `Error` gets a second plain-text call |
| RedditService.ThrowingFallbackIsCaught | libs/sdk/src/lib/services/reddit.service.ts:67-73 | when the registered renderer reports `Error` and the plain-text call in the `try` throws, the `catch` makes a third call. The item is posted exactly when that call succeeds, and an error escapes exactly when it throws |
| RedditService.OversizedSelftextFallsBack | libs/sdk/src/lib/services/reddit.service.ts:70-73 | a selftext item over the limit makes the selftext renderer throw, and the plain-text call of the `catch` still posts the item |
| RedditService.AtMostOneMessagePerItem | libs/sdk/src/lib/services/reddit.service.ts:61-73 | one item posts at most one message and never the diagnostic embed. It posts exactly one when some call on it succeeded. When the plain-text calls never fail, it always posts one and no error escapes |
| RedditService.DispatchAll | libs/sdk/src/lib/services/reddit.service.ts:46-49 | the loop makes at most three calls per item, and at least one per item when it is not cut short |
| RedditService.AbortedIff | libs/sdk/src/lib/services/reddit.service.ts:46-49 | the loop is cut short exactly when some item lets an error escape |
| RedditService.DispatchAllStep | libs/sdk/src/lib/services/reddit.service.ts:46-48 | one loop step adds the item's posts after the earlier posts. If an error escapes the item, the loop is over |
| RedditService.AbortSkipsRest | libs/sdk/src/lib/services/reddit.service.ts:44-52 | once an error has escaped the loop, no later item is dispatched |
| RedditService.DispatchAllWithoutThrow | libs/sdk/src/lib/services/reddit.service.ts:46-48 | when no item lets an error escape, the loop makes every item's calls, one item after another |
| RedditService.DispatchAllUpToThrow | libs/sdk/src/lib/services/reddit.service.ts:46-52 | when item `j` is the first to let an error escape, the loop makes exactly the calls of items `0..j` and is cut short |
| RedditService.DispatchInOrder | libs/sdk/src/lib/services/reddit.service.ts:46-48 | items are dispatched in retrieval order, each one finished before the next. With no escaped error, all items are dispatched. When item `j` is the first to let an error escape, exactly items `0..j` are dispatched |
| RedditService.PrefixPosts | libs/sdk/src/lib/services/reddit.service.ts:46-48 | the posts of the first `m` items are a prefix of the posts of all items |
| RedditService.PostAt | libs/sdk/src/lib/services/reddit.service.ts:46-48 | when every item posts exactly one message, the post at index `k` is item `k`'s |
| RedditService.OneMessageEach | libs/sdk/src/lib/services/reddit.service.ts:46-48 | when every item posts exactly one message, there are as many posts as items, and the `k`-th post is item `k`'s |
| RedditService.ErrorEmbed | libs/sdk/src/lib/services/reddit.service.ts:97-102 | the diagnostic's title is the topic. Its description is `Le reddit /r/<topic> ne semble pas disponible`. Its URL is `<serviceUrl>/r/<topic>` |
| RedditService.ChannelFails | libs/sdk/src/lib/services/reddit.service.ts:36-52 | a channel's processing fails exactly when the fetch for its topic fails or some fetched item lets an error escape |
| RedditService.ChannelMessages | libs/sdk/src/lib/services/reddit.service.ts:35-53 | an ineligible channel receives nothing. A channel whose fetch fails receives only the diagnostic. An eligible channel receives exactly one diagnostic, as its last message, when its processing fails, and none otherwise. The item messages before it are given by `ChannelMessagesWithoutThrow` and `ChannelMessagesUpToThrow` |
| RedditService.ChannelMessagesWithoutThrow | libs/sdk/src/lib/services/reddit.service.ts:44-48 | when the fetch succeeds and no item lets an error escape, an eligible channel receives exactly the posts of every item's calls, in retrieval order, and no diagnostic |
| RedditService.ChannelMessagesUpToThrow | libs/sdk/src/lib/services/reddit.service.ts:44-52 | when the fetch succeeds and item `j` is the first to let an error escape, an eligible channel receives exactly the posts of items `0..j`, in retrieval order, then one diagnostic; later items are skipped |
| RedditService.EveryItemDeliveredOnce | libs/sdk/src/lib/services/reddit.service.ts:44-48 | when the plain-text calls never fail, an eligible channel whose fetch succeeds receives exactly one message per item, in retrieval order |
| RedditService.FunnyChannelExample | libs/sdk/src/lib/services/reddit.service.ts:35-53 | topic "funny" with a direct image and then a text post: the image renderer is called first and the selftext renderer second, and both posts arrive in that order |
| RedditService.RedditService.SendSubmissionsToChannels | libs/sdk/src/lib/services/reddit.service.ts:25-33 | every channel's log grows by exactly what `ChannelMessages` gives for it, and by nothing else |
| RedditService.RedditService.SendSubmissionsToChannel | libs/sdk/src/lib/services/reddit.service.ts:35-53 | the channel's log grows by exactly `ChannelMessages` for it |
| RedditService.RedditService.SendEachSubmission | libs/sdk/src/lib/services/reddit.service.ts:46-48 | the loop appends exactly the posts of `DispatchAll` over the items, and reports whether an error escaped |
| RedditService.RedditService.SendNextSubmission | libs/sdk/src/lib/services/reddit.service.ts:46-48 | one pass of the loop appends the item's posts after those of the items before it. It reports whether the loop is cut short, and when it is, the remaining items change nothing |
| RedditService.RedditService.SendSubmissionToChannel | libs/sdk/src/lib/services/reddit.service.ts:55-74 | the channel's log grows by exactly the posts of the item's calls: the registered renderer, the plain-text call in the `try` after an `Error`, and the plain-text call of the `catch`. The method reports whether the `catch` call threw |
| RedditService.RedditService.CallRenderer | libs/sdk/src/lib/services/reddit.service.ts:64-72 | one renderer call appends the call's post, if any, and returns how the call ended |
| RedditService.RedditService.SendEmbedError | libs/sdk/src/lib/services/reddit.service.ts:97-105 | the channel's log grows by exactly the diagnostic embed for its topic |

## Left out

- Titles, selftexts and topics are taken to be well-formed UTF-16 and are modelled as sequences of Unicode scalar values. A JavaScript string holding a lone surrogate cannot be represented, and `Utf16Length` and `TrimEnd` are stated for well-formed text only.
- Snoowrap client construction, `getSubreddit` and the retrieval options (reddit.service.ts:41-44) are foreign network calls. They become the collaborator `getTop`, which fails or returns the submissions in order. It is called once per channel and may answer differently for two channels with the same topic.
- `isUrlAnImage` is a helper whose body is not part of this model. It stays an uninterpreted collaborator.
- The image, video, gallery and plain-text renderers (`./submissions/*`) are not part of this model. Each call is an abstract outcome that depends on the channel, the item's position, the step, the renderer and the item. Within one run of the service, each call site is visited at most once, so this leaves every call free to end its own way. On success the renderer is taken to post one message, and on `Error` or a throw to post nothing. A renderer that posts part of its output and then throws is not modelled.
- The service imports the selftext renderer from `./submissions/content-text`. That file is not part of this model. The renderer at `libs/sdk/src/lib/reddit/submission-types/content-text.ts` stands for it.
- Discord's `channel.send` is taken always to succeed. That covers the selftext renderer's send and the diagnostic embed's send. The model does not cover a failed send. In particular it does not cover the un-awaited diagnostic send whose rejection goes unhandled.
- `EmbedBuilder` and the embed colour are left out. The diagnostic embed is the message `Diagnostic`, modelled by its title, description and URL only. Any embed an unseen renderer sends is part of its `Posted` message.
- `getDiscordTextChannels` is foreign chat-platform code. The channel list is an input, and its channels must be distinct objects.
- The un-awaited `forEach` over channels is concurrency. Channels are processed one after another, which is possible because they share no state.
- `performance.now` timing and `sendStats` are wall-clock values and external reporting, so they are left out.
- `console.debug` and `console.error` are logging only, so they are left out.
- An exception thrown while classifying is not modelled, for example from a missing `url` or from `isUrlAnImage`. The source would send it to the fallback like a renderer failure.
- Command registration, the ready listener, logging utilities, the advice and ping commands, the legacy pull command and the Python helper are I/O or bootstrapping outside the distribution core.
