/**
  What each handler of the bot does, as a function from the bot's state before
  the call to its state after it. The state is the persisted record (trust store
  and timeline cursor), the ordered log of everything the bot sends out or saves,
  and whether the process has died of a Go panic. Backend answers come from a
  `World`; nothing here is I/O.
*/
module BotSpec {
  import opened Wrappers
  import opened GoStrings
  import opened TrustStore
  import opened Commands
  import opened Tweets

  /** The settings the bot runs with, fixed at start-up. */
  datatype Config = Config(
    botId: string,                 // id of the bot's own chat user
    botName: string,               // its user name, as mentioned in `@name`
    channelId: string,             // the channel tweets are forwarded to
    debugChannel: Option<string>,  // the debug channel, if one is configured
    maxTweets: int)                // the batch size asked of the home timeline

  /** The fields of a chat post that the bot reads. */
  datatype Post = Post(id: string, userId: string, channelId: string, parentId: string, message: string)

  /** A websocket event: its type, the `channel_type` datum, and the decoded `post` (`None` when it does not parse). */
  datatype WsEvent = WsEvent(event: string, channelType: string, post: Option<Post>)

  const PostedEvent: string := "posted"

  /** The persisted record: trusted flags and the id of the last tweet read. */
  datatype BotData = BotData(trusted: map<string, bool>, lastPost: int)

  /** Everything the bot does that leaves the process, in the order it happens. */
  datatype Effect =
    | ChatPost(channelId: string, rootId: string, message: string)  // a chat post; rootId "" starts a thread
    | TweetPost(channelId: string, attachments: seq<Attachment>)    // postTweet
    | Logged(message: string)                                       // a line on the process log
    | Saved(data: BotData)                                         // saveData
    | DeleteRequested(postId: string)                              // DeletePost
    | CreateFriendship(handle: string)                             // Friendships.Create
    | DestroyFriendship(handle: string)                            // Friendships.Destroy
    | Panicked(reason: string)                                     // a Go runtime panic

  datatype State = State(trusted: map<string, bool>, lastPost: int, effects: seq<Effect>, halted: bool)

  /** One answer of `Friends.List`. */
  datatype FriendPage = FriendPage(screenNames: seq<string>, nextCursor: int)

  /**
    The answers of the backends during one event. `friendPages` are the answers
    to successive `Friends.List` calls; `debugHistory[p]` is the answer to
    `GetPostsForChannel` for page `p` of the debug channel (pages past the end
    are empty), its posts in the order Go's map iteration yields them.
  */
  datatype World = World(
    lookupUser: string -> Result<string, string>,
    createFriendship: string -> Option<string>,
    destroyFriendship: string -> Option<string>,
    friendPages: seq<Result<FriendPage, string>>,
    homeTimeline: (int, int) -> Result<seq<Tweet>, string>,
    debugHistory: seq<Result<seq<Post>, string>>,
    deletePost: string -> Option<string>)

  const NotTrusted: string := "Sorry, I don't trust you :/"
  const MissingArgument: string := "Missing argument"
  const OkReply: string := "Ok!"
  const DoneReply: string := "done!"
  const NoDebugChannel: string := "No DebugChannel set: there is nothing to clear!"
  const IndexOutOfRange: string := "index out of range"
  const NilDereference: string := "invalid memory address or nil pointer dereference"

  // ----- primitive effects -----

  function Emit(s: State, e: Effect): State {
    s.(effects := s.effects + [e])
  }

  /** `replyToPost`: a message in the post's channel, threaded under the post. */
  function ReplyTo(s: State, post: Post, msg: string): State {
    Emit(s, ChatPost(post.channelId, post.id, msg))
  }

  function Snapshot(s: State): BotData {
    BotData(s.trusted, s.lastPost)
  }

  /** `Logf`: a post in the debug channel, or a line on the process log when there is none. */
  function LogStep(s: State, conf: Config, msg: string): State {
    match conf.debugChannel
    case Some(id) => Emit(s, ChatPost(id, "", msg))
    case None => Emit(s, Logged("DebugChannel: " + msg))
  }

  /** `saveData`: the whole record is written. */
  function Save(s: State): State {
    Emit(s, Saved(Snapshot(s)))
  }

  /** A Go panic: it is logged and the process is gone. */
  function Panic(s: State, reason: string): State {
    Emit(s, Panicked(reason)).(halted := true)
  }

  // ----- ping, follow, unfollow -----

  function PingStep(s: State, post: Post): State {
    ReplyTo(s, post, "pong")
  }

  /** The screen name given to follow or unfollow. */
  function Handle(arg: string): string {
    TrimPrefix(TrimSpace(arg), "@")
  }

  /** `handleFollow` (`follow`) and `handleUnfollow` (`!follow`); `arg[0]` is read with no length check. */
  function FriendshipStep(s: State, post: Post, args: seq<string>, world: World, follow: bool): State {
    if !IsTrusted(s.trusted, post.userId) then ReplyTo(s, post, NotTrusted)
    else if |args| == 0 then Panic(s, IndexOutOfRange)
    else
      var handle := Handle(args[0]);
      var s1 := Emit(s, if follow then CreateFriendship(handle) else DestroyFriendship(handle));
      match (if follow then world.createFriendship(handle) else world.destroyFriendship(handle))
      case Some(err) => ReplyTo(s1, post, "Something went wrong: " + err)
      case None => ReplyTo(s1, post, OkReply)
  }

  // ----- trust, distrust -----

  /** The user an argument names: `me` is the caller, anything else is looked up by user name. */
  function Target(post: Post, arg: string, world: World): Result<string, string> {
    if arg == "me" then Success(post.userId)
    else world.lookupUser(Handle(arg))
  }

  /** `handleTrust` (`value` true) and `handleDistrust` (`value` false). */
  function SetTrustStep(s: State, post: Post, args: seq<string>, world: World, value: bool): State {
    if !IsTrusted(s.trusted, post.userId) then ReplyTo(s, post, NotTrusted)
    else if |args| == 0 then ReplyTo(s, post, MissingArgument)
    else
      match Target(post, args[0], world)
      case Failure(err) => ReplyTo(s, post, "error: " + err)
      case Success(uid) =>
        if uid in s.trusted && s.trusted[uid] == value then
          ReplyTo(s, post, if value then "already trusted" else "already distrusted")
        else
          ReplyTo(Save(s.(trusted := s.trusted[uid := value])), post, OkReply)
  }

  // ----- clear -----

  /** A post `handleClear` deletes: written by the bot and not a reply. */
  predicate OwnTopLevel(p: Post, botId: string) {
    p.userId == botId && |p.parentId| == 0
  }

  datatype ClearOutcome = Cleared | FetchFailed(error: string) | DeleteFailed(post: Post, error: string)

  /** The ids deleted, and how the run ended. */
  datatype ClearRun = ClearRun(deleted: seq<string>, outcome: ClearOutcome)

  function Prepend(ids: seq<string>, r: ClearRun): ClearRun {
    ClearRun(ids + r.deleted, r.outcome)
  }

  /** The answer to `GetPostsForChannel` for page `page`: past the known pages, an empty list. */
  function HistoryPage(pages: seq<Result<seq<Post>, string>>, page: nat): Result<seq<Post>, string> {
    if page < |pages| then pages[page] else Success([])
  }

  /** The inner loop of `handleClear` over the posts of one page, from position `i` on. */
  function PageRun(list: seq<Post>, i: nat, botId: string, deletePost: string -> Option<string>): (r: ClearRun)
    ensures !r.outcome.FetchFailed?
    decreases |list| - i
  {
    if i >= |list| then ClearRun([], Cleared)
    else if !OwnTopLevel(list[i], botId) then PageRun(list, i + 1, botId, deletePost)
    else
      match deletePost(list[i].id)
      case Some(err) => ClearRun([], DeleteFailed(list[i], err))
      case None => Prepend([list[i].id], PageRun(list, i + 1, botId, deletePost))
  }

  lemma PrependAssoc(a: seq<string>, b: seq<string>, r: ClearRun)
    ensures Prepend(a, Prepend(b, r)) == Prepend(a + b, r)
  {
    assert a + (b + r.deleted) == (a + b) + r.deleted;
  }

  /** The outer loop of `handleClear` from page number `page` on. */
  function HistoryRun(pages: seq<Result<seq<Post>, string>>, page: nat, botId: string, deletePost: string -> Option<string>): ClearRun
    decreases |pages| - page
  {
    if page >= |pages| then ClearRun([], Cleared)
    else
      match pages[page]
      case Failure(err) => ClearRun([], FetchFailed(err))
      case Success(list) =>
        var r := PageRun(list, 0, botId, deletePost);
        if !r.outcome.Cleared? || |list| == 0 then r
        else Prepend(r.deleted, HistoryRun(pages, page + 1, botId, deletePost))
  }

  /** The ids whose deletion was requested: the deleted ones and the one that failed. */
  function Attempted(r: ClearRun): seq<string> {
    r.deleted + (if r.outcome.DeleteFailed? then [r.outcome.post.id] else [])
  }

  function DeleteRequests(ids: seq<string>): (r: seq<Effect>)
    ensures |r| == |ids|
    ensures forall k :: 0 <= k < |ids| ==> r[k] == DeleteRequested(ids[k])
  {
    if ids == [] then [] else DeleteRequests(ids[..|ids| - 1]) + [DeleteRequested(ids[|ids| - 1])]
  }

  lemma DeleteRequestsSnoc(ids: seq<string>, id: string)
    ensures DeleteRequests(ids + [id]) == DeleteRequests(ids) + [DeleteRequested(id)]
  {
    assert (ids + [id])[..|ids|] == ids;
  }

  /** Asking to delete one more post, as the log sees it. */
  lemma AppendDelete(e: seq<Effect>, ids: seq<string>, id: string)
    ensures e + DeleteRequests(ids) + [DeleteRequested(id)] == e + DeleteRequests(ids + [id])
  {
    DeleteRequestsSnoc(ids, id);
    assert e + DeleteRequests(ids) + [DeleteRequested(id)] == e + (DeleteRequests(ids) + [DeleteRequested(id)]);
  }

  lemma AttemptedPrepend(ids: seq<string>, r: ClearRun)
    ensures Attempted(Prepend(ids, r)) == ids + Attempted(r)
  {
    assert ids + r.deleted + (if r.outcome.DeleteFailed? then [r.outcome.post.id] else [])
        == ids + (r.deleted + (if r.outcome.DeleteFailed? then [r.outcome.post.id] else []));
  }

  /** Asking to delete a run of posts after another, as the log sees it. */
  lemma AppendDeletes(e: seq<Effect>, a: seq<string>, b: seq<string>)
    ensures e + DeleteRequests(a) + DeleteRequests(b) == e + DeleteRequests(a + b)
  {
    DeleteRequestsConcat(a, b);
    assert e + DeleteRequests(a) + DeleteRequests(b) == e + (DeleteRequests(a) + DeleteRequests(b));
  }

  lemma DeleteRequestsConcat(a: seq<string>, b: seq<string>)
    ensures DeleteRequests(a + b) == DeleteRequests(a) + DeleteRequests(b)
  {
    assert |DeleteRequests(a + b)| == |DeleteRequests(a) + DeleteRequests(b)|;
    forall k | 0 <= k < |a + b| ensures DeleteRequests(a + b)[k] == (DeleteRequests(a) + DeleteRequests(b))[k] {
      if k >= |a| {
        assert (a + b)[k] == b[k - |a|];
      }
    }
  }

  /**
    `handleClear`. A failed deletion is answered under the post that could not be
    deleted: the loop variable `post` shadows the command post there.
  */
  function ClearStep(s: State, conf: Config, post: Post, world: World): State {
    if !IsTrusted(s.trusted, post.userId) then ReplyTo(s, post, NotTrusted)
    else if conf.debugChannel.None? then ReplyTo(s, post, NoDebugChannel)
    else ClearHistoryStep(s, conf, post, world)
  }

  /** The paging loop of `handleClear` and its final reply; a failed delete is answered under the deleted post. */
  function ClearHistoryStep(s: State, conf: Config, post: Post, world: World): State {
    var r := HistoryRun(world.debugHistory, 0, conf.botId, world.deletePost);
    var s1 := s.(effects := s.effects + DeleteRequests(Attempted(r)));
    match r.outcome
    case Cleared => ReplyTo(s1, post, DoneReply)
    case FetchFailed(err) => ReplyTo(s1, post, "error: " + err)
    case DeleteFailed(p, err) => ReplyTo(s1, p, "error: " + err)
  }

  // ----- followers -----

  /** The answer to the `i`-th `Friends.List` call: past the known answers, an empty page. */
  function FriendsAnswer(pages: seq<Result<FriendPage, string>>, i: nat): Result<FriendPage, string> {
    if i < |pages| then pages[i] else Success(FriendPage([], 0))
  }

  /** The loop of `handleFollowers` from its `i`-th call on: it stops on an empty page or a zero cursor. */
  function FollowedFrom(pages: seq<Result<FriendPage, string>>, i: nat): Result<seq<string>, string>
    decreases |pages| - i
  {
    if i >= |pages| then Success([])
    else
      match pages[i]
      case Failure(err) => Failure(err)
      case Success(pg) =>
        if |pg.screenNames| == 0 then Success([])
        else if pg.nextCursor == 0 then Success(pg.screenNames)
        else
          match FollowedFrom(pages, i + 1)
          case Failure(err) => Failure(err)
          case Success(rest) => Success(pg.screenNames + rest)
  }

  function Quoted(names: seq<string>): (r: seq<string>)
    ensures |r| == |names|
  {
    seq(|names|, k requires 0 <= k < |names| => "\"" + names[k] + "\"")
  }

  /** `fmt.Sprintf("%#v", names)` for a `[]string` that is nil exactly when empty. */
  function GoStringSlice(names: seq<string>): string {
    if |names| == 0 then "[]string(nil)" else "[]string{" + Join(Quoted(names), ", ") + "}"
  }

  function FollowersStep(s: State, post: Post, world: World): State {
    if !IsTrusted(s.trusted, post.userId) then ReplyTo(s, post, NotTrusted)
    else
      match FollowedFrom(world.friendPages, 0)
      case Failure(err) => ReplyTo(s, post, "error: " + err)
      case Success(names) => ReplyTo(s, post, "I'm following: " + GoStringSlice(names))
  }

  // ----- timeline -----

  /** The first loop of `checkTimeline`: the largest of `cursor` and the ids. */
  function MaxId(cursor: int, tweets: seq<Tweet>): int
    decreases |tweets|
  {
    if tweets == [] then cursor
    else MaxId(if tweets[0].id > cursor then tweets[0].id else cursor, tweets[1..])
  }

  /** `postTweet`: one post in the main channel, or a panic on a nil dereference. */
  function PostTweetStep(s: State, conf: Config, t: Tweet): State {
    match Attachments(t)
    case None => Panic(s, NilDereference)
    case Some(a) => Emit(s, TweetPost(conf.channelId, a))
  }

  /** The second loop of `checkTimeline`. */
  function PostTweets(s: State, conf: Config, tweets: seq<Tweet>): State
    decreases |tweets|
  {
    if tweets == [] || s.halted then s
    else PostTweets(PostTweetStep(s, conf, tweets[0]), conf, tweets[1..])
  }

  /** `checkTimeline`: fetch since the cursor, advance and save the cursor, then forward. */
  function CheckTimelineStep(s: State, conf: Config, world: World): State {
    match world.homeTimeline(conf.maxTweets, s.lastPost)
    case Failure(err) => LogStep(s, conf, "checkTimeline error: " + err)
    case Success(tweets) => PostTweets(Save(s.(lastPost := MaxId(s.lastPost, tweets))), conf, tweets)
  }

  function CheckStep(s: State, conf: Config, post: Post, world: World): State {
    if !IsTrusted(s.trusted, post.userId) then ReplyTo(s, post, NotTrusted)
    else
      var s1 := CheckTimelineStep(s, conf, world);
      if s1.halted then s1 else ReplyTo(s1, post, DoneReply)
  }

  // ----- dispatch -----

  /** `handleUnknownCommand`, with the registry enumerated in `order`. */
  function UnknownStep(s: State, post: Post, order: seq<string>): State {
    ReplyTo(s, post, HelpMessage(Join(order, ", ")))
  }

  function CommandStep(s: State, conf: Config, c: Command, post: Post, args: seq<string>, world: World): State {
    match c
    case Ping => PingStep(s, post)
    case Follow => FriendshipStep(s, post, args, world, true)
    case Unfollow => FriendshipStep(s, post, args, world, false)
    case Followers => FollowersStep(s, post, world)
    case Trust => SetTrustStep(s, post, args, world, true)
    case Distrust => SetTrustStep(s, post, args, world, false)
    case Check => CheckStep(s, conf, post, world)
    case Clear => ClearStep(s, conf, post, world)
  }

  /** The events `handleWebSocketEvent` drops without a reply. */
  predicate Ignored(conf: Config, ev: WsEvent) {
    || ev.event != PostedEvent
    || ev.post.None?
    || ev.post.value.userId == conf.botId
    || ParseCommand(ev.post.value.message, conf.botName, ev.channelType == "D").None?
  }

  /** The end of `handleWebSocketEvent`: the named handler, or the help reply for a name with none. */
  function CommandOrHelp(s: State, conf: Config, post: Post, name: string, args: seq<string>, world: World, order: seq<string>): State {
    match Lookup(name)
    case Some(c) => CommandStep(s, conf, c, post, args, world)
    case None => UnknownStep(s, post, order)
  }

  /** `handleWebSocketEvent`. */
  function EventStep(s: State, conf: Config, ev: WsEvent, world: World, order: seq<string>): State {
    if ev.event != PostedEvent then s
    else
      var isDM := ev.channelType == "D";
      match ev.post
      case None => s
      case Some(post) =>
        if post.userId == conf.botId then s
        else
          match ParseCommand(post.message, conf.botName, isDM)
          case None => s
          case Some((name, args)) => CommandOrHelp(s, conf, post, name, args, world, order)
  }
}
