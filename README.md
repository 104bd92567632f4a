# twittermost, modelled in Dafny

twittermost is a Mattermost bot that forwards a Twitter home timeline into a
Mattermost channel, and answers chat commands: `ping`, `follow`, `unfollow`,
`followers`, `trust`, `distrust`, `check` and `clear`. A small companion
library, `mminteracter`, validates Mattermost slash-command requests before it
hands them to a registered handler.

This project models the bot's sequential decision and state-update code, the
slash-command query validation, and the request gate. It then proves
properties of that model.

- **Trust store** (`trust.dfy`, module `TrustStore`). The trust map is
  `map<string, bool>`, and an empty map means everybody is trusted. Also here:
  what trust and distrust writes do to it, and that once the map is non-empty
  it stays non-empty.
- **Command parsing** (`commands.dfy`, module `Commands`). This covers:
  the trim, strip-the-mention, trim again, split-once parse of a chat message;
  the fixed registry of eight command names; and the help text listing them.
  Go's `strings` helpers are in `gostrings.dfy`.
- **Tweet rendering** (`tweets.dfy`, module `Tweets`). The text is chosen
  according to retweet and truncation. The first photo goes inline, and every
  further photo becomes its own image-only attachment.
- **Handlers as step functions** (`botspec.dfy`, module `BotSpec`). Each
  handler is a function from the bot's `State` to the next `State`:
  - the state holds the trust map, the timeline cursor, an ordered log of
    effects, and a `halted` flag;
  - the effects are chat posts, debug log lines, saves of the data record,
    delete requests, friendship requests and panics;
  - every backend answer (Mattermost, Twitter) comes from a `World` value:
    functions for single calls, and sequences of answers for paged calls.
- **Properties of the handlers** (`botprops.dfy`, module `BotProps`).
- **The bot object** (`internal.dfy`, module `Internal`). Class `Bot` holds the
  fields the handlers update in place. Every handler is a method whose
  postcondition ties the new object state to the step function applied to the
  old state. The paging loops of `clear` and `followers`, the cursor loop and
  posting loop of the timeline check, and the help-text loop are `while`
  loops with invariants.
- **Slash commands** (`slashcommand.dfy`, module `SlashCommand`). Class `Query`
  has the ten fields of the Go record. `Deserialize` fills nine of them from
  the request form, then checks eight required fields in a fixed order.
- **Request gate** (`service.dfy`, module `Service`). Class `Service` holds the
  router, port and allowed token. `HandleSlashCommand` runs the guard chain in
  order: route (405), then fields (400), then token (403), then the handler.

Some behaviour is kept as the code has it, where a reader might expect
otherwise:

- `follow` and `unfollow` read their first argument with no length check.
  With no argument the model panics and halts (`FriendshipMissingArgumentPanics`).
- In `clear`, the inner loop variable shadows the command's post. A failed
  delete is therefore answered under the deleted post, not under the command
  (`ClearStep`, `ClearPost`).
- The mention is stripped by a plain prefix test, so `@botty ping` sent to a
  bot called `bot` is read as the command `ty` with argument `ping`
  (`NoWordBoundary`).
- `mminteracter/service/service.go:53` compares the allowed token with
  `cmd.Token`. `Query` declares no such field: its token field is the
  unexported `token` (`mminteracter/slashcommand/slashcommand.go:16`), and
  `Deserialize` never sets it. So the line does not compile as written. The
  model compares with the unexported field, which is always the empty string.
  Any configured token therefore refuses every well-formed request
  (`ConfiguredTokenRefusesAll`).
- The posts of one history page arrive as a Go map, whose iteration order is
  not specified. The order of the help text's command names comes from a Go
  map too. Both orders are inputs to the model. The properties about them
  speak of membership, or hold for every order.

## Model

| member | source | states |
|---|---|---|
| GoStrings.TrimSpace | internal/bot.go:220-221 | the trimmed text has no white space at either end and is no longer than the input |
| GoStrings.TrimSpaceCutsOnlySpace | internal/bot.go:220-221 | the trimmed text is a contiguous piece of the input, and everything cut on either side is white space |
| GoStrings.TrimSpaceFixpoint | internal/bot.go:221-222 | trimming a text that has no white space at its ends leaves it unchanged |
| GoStrings.TrimPrefix | internal/bot.go:221 | when the text starts with the prefix, the prefix followed by the result is the text; otherwise the text is returned unchanged |
| GoStrings.SplitOnce | internal/bot.go:226-227 | at most one remainder; the name holds no separator; name, separator and remainder put back together give the input |
| GoStrings.JoinContainsEach | internal/bot.go:86-93 | every name joined into the list occurs in the joined text |
| GoStrings.DecimalRoundTrip | internal/bot.go:293 | reading back the decimal digits written for a number gives the number |
| GoStrings.FormatInt | internal/bot.go:293 | a non-negative id is written as decimal digits, with no leading zero, that read back as the id; a negative one as a minus sign before such digits for its magnitude |
| TrustStore.IsTrusted | internal/bot.go:333-339 | an empty store trusts everyone; a non-empty store trusts exactly the users whose entry is true |
| TrustStore.SetEntry | internal/bot.go:493 | after writing `value` for a user, that user is trusted exactly when `value` holds, even if the store was empty; other users are judged by their old entries |
| TrustStore.FirstEntryClosesOpenTrust | internal/bot.go:526 | the first write to an empty store leaves at most that one user trusted, and nobody when the write is a distrust |
| TrustStore.Apply | internal/bot.go:487-528 | a series of trust and distrust writes never removes a user from the store, and a non-empty series leaves the store non-empty |
| TrustStore.LastUpdateWins | internal/bot.go:487-528 | after a non-empty series of writes, a user written to is trusted exactly when the last write for them was a trust; any other user keeps their original entry, so open trust never returns |
| Commands.Lookup | internal/bot.go:70-83 | a command is found exactly for the eight registered names, and the command found has the name looked up |
| Commands.LookupName | internal/bot.go:70-83 | every command is registered and is found under its own name |
| Commands.Stripped | internal/bot.go:220-221 | defines the message text the parse works on: trimmed, the mention removed once, trimmed again |
| Commands.ParseCommand | internal/bot.go:220-227 | defines the parse: a channel message whose stripped text equals its trimmed text is ignored; otherwise the stripped text is split once at the first space into the name and at most one argument; its properties are IgnoredIffNoMention, ParsedShape and NoWordBoundary |
| Commands.IgnoredIffNoMention | internal/bot.go:220-224 | a channel message is ignored exactly when its trimmed text does not start with `@` and the bot's name; a direct message is never ignored |
| Commands.ParsedShape | internal/bot.go:226-227 | a parsed command has no space in its name and at most one argument, and name and argument joined by a space give back the stripped message |
| Commands.NoWordBoundary | internal/bot.go:221 | whatever follows the mention, even with no space before it, is the command text |
| Commands.RegistryOrderNames | internal/bot.go:87 | any enumeration of the handler map holds exactly the registered names, none of them empty |
| Commands.CommandList | internal/bot.go:86-93 | the loop builds the names joined by ", " in enumeration order |
| Commands.HelpNamesEveryCommand | internal/bot.go:85-96 | the help reply starts with the apology and names every registered command, whatever the enumeration order |
| Tweets.FullTextOf | internal/bot.go:275-279 | the text is missing exactly when the tweet is truncated and has no extended tweet, the nil that Go would dereference |
| Tweets.TextChoice | internal/bot.go:263-280 | a retweet's text is the `RT @[name](link)` header followed by the original's text; any other tweet gives its own text; the text is missing exactly when a nil status or a nil extended tweet would be dereferenced |
| Tweets.TweetText | internal/bot.go:263-280 | defines the text of a post: the reshare header and the original's text for a retweet, the tweet's own text otherwise; its properties are TextChoice |
| Tweets.Photos | internal/bot.go:297-304 | defines the photo URLs of the media in media order, other kinds skipped; there are never more photos than media |
| Tweets.PhotosPrefix | internal/bot.go:300-304 | walking the media list, an entry adds its URL to the photos exactly when its type is "photo" |
| Tweets.LayoutShape | internal/bot.go:297-318 | one attachment plus one per photo after the first; the first photo is the image of the first attachment; photo `k` is the only content of attachment `k` |
| Tweets.Layout | internal/bot.go:297-318 | defines where the photos go: the first into the head attachment, each further one into an image-only attachment of its own; its properties are LayoutShape |
| Tweets.Attachments | internal/bot.go:263-318 | defines the attachments `postTweet` sends: the text in the head attachment laid out with the photos, or nothing where Go dereferences nil; its properties are AttachmentLayout |
| Tweets.AttachmentLayout | internal/bot.go:282-318 | the first attachment holds the text as its one field, the author's name as title, the status link as title link and the avatar as thumbnail; the photos follow in media order |
| Tweets.BuildAttachments | internal/bot.go:263-318 | the imperative build, with its applied-photo counter, produces exactly the attachments above, or reports the nil dereference |
| Tweets.ChooseText | internal/bot.go:263-280 | the branches on retweet and truncation give exactly the tweet's text, or report the nil that would be dereferenced |
| Tweets.LayoutMedia | internal/bot.go:297-318 | the media loop, with its applied-photo counter, builds exactly the layout of the head attachment and the photos |
| BotSpec.Panic | internal/bot.go:455 | defines a Go runtime panic: the panic is recorded and the bot stops |
| BotSpec.PingStep | internal/bot.go:341-343 | defines ping: one "pong" reply |
| BotSpec.Handle | internal/bot.go:455 | defines the screen name taken from an argument: trimmed, then one leading `@` removed |
| BotSpec.FriendshipStep | internal/bot.go:433-463 | defines follow and unfollow: the trust refusal, a panic on a missing argument, or one create or destroy request for the handle followed by "Ok!" or the error reply; its properties are FriendshipFrame, FriendshipRequested and FriendshipMissingArgumentPanics |
| BotSpec.Target | internal/bot.go:475-485 | defines whose entry trust and distrust write: the caller for "me", otherwise the user the lookup finds for the handle, or the lookup's error |
| BotSpec.SetTrustStep | internal/bot.go:465-529 | defines trust and distrust: the trust refusal, the missing-argument reply, the lookup error reply, the "already" reply for an entry that already has the value, otherwise the write, the save and "Ok!"; its properties are SetTrustFrame, SetTrustRefused, SetTrustApplied and FirstTrustClosesStore |
| BotSpec.PageRun | internal/bot.go:366-377 | defines the inner loop of clear over one page: other users' posts and replies are skipped, the rest deleted in page order, until the first failed delete; a page never ends in a fetch failure; its properties are PageRunSpec |
| BotSpec.HistoryRun | internal/bot.go:359-383 | defines the paging loop of clear: the page runs in page order, ending at a failed fetch, a failed delete or an empty page; its properties are HistoryRunSpec and ClearReadsNoFurther |
| BotSpec.ClearHistoryStep | internal/bot.go:356-385 | defines the effects of the paging loop: one delete request per attempted post, then "done!", the fetch error under the command post, or the delete error under the post that could not be deleted |
| BotSpec.ClearStep | internal/bot.go:345-386 | defines clear: the trust refusal, the missing-debug-channel reply, otherwise the paging loop; its properties are ClearFrame, ClearDeletesOnlyOwnPosts and ClearNeedsDebugChannel |
| BotSpec.FollowedFrom | internal/bot.go:404-428 | defines the cursor loop of followers: names collected in call order until an error, an empty page or a zero cursor; an error discards the names; its properties are FollowersReadNoFurther, FollowersCollectsEveryPage and FollowedShift |
| BotSpec.GoStringSlice | internal/bot.go:430 | defines the `%#v` of the collected names: `[]string(nil)` when there are none, otherwise the quoted names in braces, comma-separated |
| BotSpec.FollowersStep | internal/bot.go:397-431 | defines followers: the trust refusal, the error reply, or "I'm following: " and the names; its properties are FollowersFrame and FollowersReplyNamesEach |
| BotSpec.MaxId | internal/bot.go:248-252 | defines the first loop of the timeline check: the largest of the cursor and every fetched id; its properties are MaxIdBounds and MaxIdOrderFree |
| BotSpec.PostTweetStep | internal/bot.go:260-330 | defines `postTweet`: one post of the attachments to the bot's channel, or a panic where Go dereferences nil |
| BotSpec.PostTweets | internal/bot.go:255-257 | defines the second loop: each tweet posted in batch order, nothing after a panic; its properties are PostTweetsFrame, PostTweetsAll and PostTweetsStopsAtPanic |
| BotSpec.CheckTimelineStep | internal/bot.go:236-258 | defines the timeline check: a failed fetch logs one line; otherwise the cursor moves to the largest id, is saved, and the tweets are posted; its properties are TimelineFetchFailed and TimelineForwardsAll |
| BotSpec.CheckStep | internal/bot.go:388-395 | defines check: the trust refusal, otherwise the timeline check and then "done!" unless the check panicked; its properties are CheckFrame |
| BotSpec.UnknownStep | internal/bot.go:85-96 | defines the help reply: the apology and the command names in enumeration order |
| BotSpec.CommandStep | internal/bot.go:229-233 | defines what each registered command does, one handler step per command |
| BotSpec.CommandOrHelp | internal/bot.go:229-233 | defines the dispatch: the registered command's step, or the help reply for any other name; its properties are CommandAppends and UnknownCommandGetsHelp |
| BotSpec.EventStep | internal/bot.go:206-234 | defines one websocket event: the filters, the parse, then the dispatch; its properties are IgnoredIffNothingHappens, StoreNeverReopens and CursorNeverDecreases |
| BotProps.PostTweetsFrame | internal/bot.go:255-257 | posting a batch keeps the store and cursor, only appends effects, appends nothing once halted, and appends only tweet posts and panics |
| BotProps.FriendshipFrame | internal/bot.go:433-463 | follow and unfollow only append effects and change neither store nor cursor |
| BotProps.FriendshipRequested | internal/bot.go:449-463 | a trusted follow or unfollow with an argument asks once about the handle, then replies "Ok!" exactly when the call reports no error |
| BotProps.FriendshipMissingArgumentPanics | internal/bot.go:455 | a trusted follow or unfollow with no argument panics with an index-out-of-range error and the process stops |
| BotProps.SetTrustFrame | internal/bot.go:465-529 | trust and distrust only append effects, never remove a user from the store, and leave the cursor alone |
| BotProps.ClearFrame | internal/bot.go:345-386 | clear only appends effects and changes neither store nor cursor |
| BotProps.FollowersFrame | internal/bot.go:397-431 | the followers listing only appends effects and changes neither store nor cursor |
| BotProps.CheckFrame | internal/bot.go:388-395 | check only appends effects, keeps the store and never moves the cursor back |
| BotProps.CommandAppends | internal/bot.go:229-233 | every command appends at least one effect and never removes a user from the store; only trust and distrust change the store; only check moves the cursor, and only forward |
| BotProps.IgnoredIffNothingHappens | internal/bot.go:206-224 | an event leaves the state unchanged exactly when it is filtered out: not a post, no post, the bot's own post, or a channel message without the mention |
| BotProps.StoreNeverReopens | internal/bot.go:206-234 | no event removes a user from the trust store, so a closed store never opens again |
| BotProps.UntrustedCallerRefused | internal/bot.go:345-349 | for every command but ping, as in each handler's opening guard, an untrusted caller gets exactly one "Sorry, I don't trust you :/" reply and the store is unchanged |
| BotProps.UnknownCommandGetsHelp | internal/bot.go:229-233 | an unregistered command gets one reply under its post that starts with the apology and names every command, and nothing else changes |
| BotProps.CursorNeverDecreases | internal/bot.go:248-252 | no event moves the timeline cursor back |
| BotProps.SetTrustRefused | internal/bot.go:465-485 | an untrusted caller, a missing argument or a failed user lookup gets one reply under the post and leaves the store unchanged |
| BotProps.SetTrustApplied | internal/bot.go:487-495 | otherwise the target's entry becomes the requested value; a change is saved before the "Ok!" reply; an entry that already had the value gets "already trusted" or "already distrusted" and no save |
| BotProps.FirstTrustClosesStore | internal/bot.go:487-495 | trusting a user on an empty store saves a store holding only that user, after which exactly that user is trusted |
| BotProps.MaxIdBounds | internal/bot.go:248-252 | the new cursor is at least the old one and at least every fetched id, and it is either the old cursor or one of the ids |
| BotProps.MaxIdOrderFree | internal/bot.go:248-252 | the new cursor depends only on the fetched ids, not on their order |
| BotProps.CursorExample | internal/bot.go:248-252 | from cursor 100, ids 101, 103, 102 give cursor 103 |
| BotProps.PostTweetsAll | internal/bot.go:255-257 | when every tweet renders, each one is posted once to the bot's channel, in batch order, and nothing else happens |
| BotProps.PostTweetsStopsAtPanic | internal/bot.go:255-257 | the first tweet that cannot render panics after the tweets before it were posted, and nothing after it is posted |
| BotProps.TimelineFetchFailed | internal/bot.go:242-246 | a failed fetch logs one line and changes nothing else: no save, no post, cursor unchanged |
| BotProps.TimelineForwardsAll | internal/bot.go:236-258 | a fetched batch moves the cursor to the maximum id and saves the new cursor before any tweet is posted, then posts every tweet in order |
| BotProps.PageRunSpec | internal/bot.go:366-377 | on one history page, only the bot's own top-level posts are deleted, in page order; the run stops at the first failed delete; the page clears exactly when every such delete succeeds |
| BotProps.HistoryRunSpec | internal/bot.go:359-383 | over all pages, the deletes asked for are a prefix of the bot's own top-level posts; every completed delete succeeded; without a delete failure, all of them were deleted |
| BotProps.ClearDeletesOnlyOwnPosts | internal/bot.go:345-386 | a trusted clear with a debug channel asks for a prefix of the deletes and then gives exactly one reply; "done!" is replied only when every own top-level post was deleted |
| BotProps.ClearNeedsDebugChannel | internal/bot.go:346-354 | without a debug channel, clear deletes nothing and gives one reply |
| BotProps.ClearReadsNoFurther | internal/bot.go:359-383 | clear reads no page after the first empty page or failed fetch |
| BotProps.FollowersReadNoFurther | internal/bot.go:407-428 | the followers listing makes no call after an error, an empty page or a zero cursor |
| BotProps.FollowersCollectsEveryPage | internal/bot.go:407-428 | on any listing whose calls all succeed and where only the last page is empty or has a zero cursor, the names collected from a call on are the names of every page from that call on, in call order; this includes a user with no friends and an empty last page |
| BotProps.FollowedShift | internal/bot.go:407-428 | the listing from a call on depends only on the answers from that call on |
| BotProps.FollowersReplyNamesEach | internal/bot.go:430 | a successful listing gives one reply in which every collected screen name appears quoted |
| Internal.Bot.constructor | internal/bot.go:70-83 | a new bot holds the loaded data record and no effects, and has not panicked |
| Internal.Bot.ReplyToPost | internal/bot.go:531-541 | appends one chat post in the post's channel, threaded under the post |
| Internal.Bot.SaveData | internal/bot.go:605-612 | appends a save of the whole current data record |
| Internal.Bot.Logf | internal/bot.go:629-642 | posts the message to the debug channel, or writes a prefixed process-log line when there is none |
| Internal.Bot.RaisePanic | internal/bot.go:455 | a Go runtime panic, such as the unchecked `arg[0]` or a nil dereference: the panic is recorded, the bot stops, and nothing else changes |
| Internal.Bot.HandlePing | internal/bot.go:341-343 | replies "pong" to anyone |
| Internal.Bot.HandleFollow | internal/bot.go:449-463 | the new state is the follow step of the old state |
| Internal.Bot.HandleUnfollow | internal/bot.go:433-447 | the new state is the unfollow step of the old state |
| Internal.Bot.HandleTrust | internal/bot.go:465-496 | the new state is the trust step of the old state |
| Internal.Bot.HandleDistrust | internal/bot.go:498-529 | the new state is the distrust step of the old state |
| Internal.Bot.ClearPost | internal/bot.go:367-376 | one turn of the inner loop: only an own top-level post is deleted, and a failed delete is answered under that post |
| Internal.Bot.ClearPage | internal/bot.go:366-377 | the inner loop asks for exactly the page run's deletes, and reports failure exactly when the run ended in a failed delete |
| Internal.Bot.ClearHistory | internal/bot.go:356-385 | the paging loop asks for exactly the deletes of the history run, page by page, and ends with the one reply the run's outcome calls for |
| Internal.Bot.HandleClear | internal/bot.go:345-386 | an untrusted caller or a missing debug channel gets its one reply and nothing is deleted; otherwise the paging loop leaves the state the clear step specifies |
| Internal.Bot.HandleFollowers | internal/bot.go:397-431 | the cursor loop leaves the state the followers step specifies |
| Internal.Bot.PostTweet | internal/bot.go:260-330 | posts the rendered tweet to the bot's channel, or panics where Go dereferences nil |
| Internal.Bot.CheckTimeline | internal/bot.go:236-258 | the fetch, the cursor loop, the save and the posting loop leave the state the timeline step specifies |
| Internal.Bot.HandleCheck | internal/bot.go:388-395 | the new state is the check step of the old state |
| Internal.Bot.HandleUnknownCommand | internal/bot.go:85-96 | replies with the help text built from the map's enumeration order |
| Internal.Bot.HandleWebSocketEvent | internal/bot.go:206-234 | the filters, the parse and the dispatch leave the state the event step specifies |
| Internal.Bot.RunCommand | internal/bot.go:229-233 | a registered name runs its handler; any other name gets the help reply |
| Internal.Bot.Dispatch | internal/bot.go:233 | runs the handler registered for the command |
| SlashCommand.Filled | mminteracter/slashcommand/slashcommand.go:22-30 | reading the form never touches the token field |
| SlashCommand.Validate | mminteracter/slashcommand/slashcommand.go:32-63 | defines the eight checks in the source's order, each giving the `empty <key>` error; its properties are ValidateIsFirstMissing and TextNeverRequired |
| SlashCommand.FirstMissing | mminteracter/slashcommand/slashcommand.go:32-63 | the reference validation: the error for the first required key with an empty form value; its properties are FirstMissingNoneIff and FirstMissingNamesFirst |
| SlashCommand.MissingFrom | mminteracter/slashcommand/slashcommand.go:32-63 | the reference validation from the `i`-th key on |
| SlashCommand.ValidateIsFirstMissing | mminteracter/slashcommand/slashcommand.go:32-63 | the chain of eight field checks returns the error for the first required key, in the fixed order, whose form value is empty |
| SlashCommand.FirstMissingNoneIff | mminteracter/slashcommand/slashcommand.go:32-63 | validation succeeds exactly when every required key has a non-empty value |
| SlashCommand.FirstMissingNamesFirst | mminteracter/slashcommand/slashcommand.go:32-63 | an error names a required key whose value is empty, and every earlier required key has a value |
| SlashCommand.TextNeverRequired | mminteracter/slashcommand/slashcommand.go:28-63 | the message text is read but never required |
| SlashCommand.Query.constructor | mminteracter/slashcommand/slashcommand.go:8-19 | a fresh query has every field empty, as Go's zero value does |
| SlashCommand.Query.Deserialize | mminteracter/slashcommand/slashcommand.go:21-64 | fills nine fields from the form, keeps the token, and returns the first missing-field error |
| SlashCommand.Query.ReadForm | mminteracter/slashcommand/slashcommand.go:22-30 | every field but the token takes its form value |
| SlashCommand.Query.ReadChannel | mminteracter/slashcommand/slashcommand.go:22-24 | the channel id, channel name and command take their form values, in that order, and nothing else changes |
| SlashCommand.Query.ReadTeam | mminteracter/slashcommand/slashcommand.go:25-27 | the response URL, team domain and team id take their form values, in that order, and nothing else changes |
| SlashCommand.Query.ReadUser | mminteracter/slashcommand/slashcommand.go:28-30 | the text, user id and user name take their form values, in that order, and nothing else changes |
| SlashCommand.Query.CheckRequired | mminteracter/slashcommand/slashcommand.go:32-63 | the early-return checks of the eight required fields, in order |
| Service.GateAcceptsIff | mminteracter/service/service.go:45-61 | a request reaches its handler exactly when its path is routed, every required field is present and no token is configured; the handler then sees the form's fields and an empty token |
| Service.ConfiguredTokenRefusesAll | mminteracter/service/service.go:53-55 | with a token configured, every routed, well-formed request is refused with 403 |
| Service.FieldsCheckedBeforeToken | mminteracter/service/service.go:48-55 | a routed request missing a required field gets 400, whatever the token |
| Service.UnroutedIsNotAllowed | mminteracter/service/service.go:58-60 | an unrouted path gets 405, whatever the form and the token |
| Service.Decide | mminteracter/service/service.go:45-61 | defines the guard chain: an unrouted path gets 405, a deserialisation error 400, a configured token that differs from the query's 403, otherwise the query goes to the handler |
| Service.Gate | mminteracter/service/service.go:45-61 | defines the guard chain on a fresh query filled from the form; its properties are GateAcceptsIff, ConfiguredTokenRefusesAll, FieldsCheckedBeforeToken and UnroutedIsNotAllowed |
| Service.Service.constructor | mminteracter/service/service.go:22-31 | a new service has no routes, port 0 and no token |
| Service.Service.SetPort | mminteracter/service/service.go:33-35 | sets the port and nothing else |
| Service.Service.SetAllowedToken | mminteracter/service/service.go:68-70 | sets the allowed token and nothing else |
| Service.Service.RegisterSlashCommandHandler | mminteracter/service/service.go:40-43 | routes the path to the handler, replacing any earlier one, and changes nothing else |
| Service.Service.HandleSlashCommand | mminteracter/service/service.go:45-61 | answers with the gate's refusal, or with what the routed handler answers for the deserialised query |

## Left out

- The websocket connection, its reconnect loop and the backoff (internal/bot.go:99-204) are left out: they are concurrency, networking and an outside library. Events enter the model one at a time.
- Signal handling, the timeline ticker and `Run` (internal/bot.go:543-587) are left out: they are goroutines, timers and process exit.
- `loadData` and `saveData` do JSON and file I/O under `dataLock` (internal/bot.go:589-612). A save is modelled as a snapshot of the data record. A load is the data record given to the constructor. Write failures (`log.Fatalf`) and the lock are not modelled.
- A data file that holds no trust map would leave the map nil. A later trust or distrust would then panic on the map write. This is not modelled: the store is always a map.
- Every Mattermost and Twitter call is an answer drawn from `World`. The model does not look at the parameters these calls send: page size, cursor value, tweet mode, count and since-id.
- The answers to the paged calls (`GetPostsForChannel`, `Friends.List`) are numbered by call, not by page number or cursor value.
- The order of posts within a history page, and the enumeration order of the command map, are inputs to the model. The Go runtime chooses them.
- Failures of `CreatePost` in `replyToPost`, `postTweet` and `Logf` only reach the process log, so they are not modelled. Every post is recorded as a requested effect.
- `Logf` formatting: only the messages it is actually given are modelled.
- The `%#v` rendering of the followers reply is modelled as Go's quoted, comma-separated form, without Go's escaping of special characters inside names.
- The type assertion `event.Data["post"].(string)` (internal/bot.go:212) panics when the event has no post datum or it is not a string. The model's event carries an optional post that came out of `PostFromJson`. `None` is the nil post returned at internal/bot.go:213-215. The type-assertion panic is not modelled.
- The `log.Println("Sending message")` at the start of `replyToPost` (internal/bot.go:532) is left out: it only writes to the process log, and every reply is already recorded as a chat post.
- Tweets and posts are assumed to be non-nil records, except the nil pointers the rendering explicitly dereferences (`RetweetedStatus`, `ExtendedTweet`).
- Internal.Bot.CheckTimeline, Internal.Bot.HandleCheck, Internal.Bot.HandleWebSocketEvent, Internal.Bot.RunCommand and Internal.Bot.Dispatch require a bot that has not panicked, because a panicked process runs nothing further.
- The Twitter login, the Mattermost login and the configuration loading are left out as I/O plumbing. These are `setupTwitter`, `setupMattermost`, internal/config.go and main.go.
- internal/dialog.go is a server stub with one handler that always refuses. It is not part of this model.
- In service.go, `New`'s middleware, `RegisterHealthcheck`, `Start`, and the echo route that `RegisterSlashCommandHandler` also adds are left out, as framework wiring. The route table is the router map alone.
- A slash-command handler is modelled as a function from the query to a response. Its access to the echo context and its error result are not modelled.
- The 400 answer's body is modelled as an empty JSON object, since Go encodes an `errors.New` value that way. The 405 body is JSON `null`.
