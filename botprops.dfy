/** Properties of the handlers modelled in `BotSpec`. */
module BotProps {
  import opened Wrappers
  import opened GoStrings
  import opened TrustStore
  import opened Commands
  import opened Tweets
  import opened BotSpec

  // ----- every handler only appends to the log, and keys are never dropped from the store -----

  lemma {:induction false} PostTweetsFrame(s: State, conf: Config, tweets: seq<Tweet>)
    ensures var r := PostTweets(s, conf, tweets);
      && r.trusted == s.trusted && r.lastPost == s.lastPost
      && s.effects <= r.effects
      && (s.halted ==> r == s)
      && (forall k :: |s.effects| <= k < |r.effects| ==> r.effects[k].TweetPost? || r.effects[k].Panicked?)
    decreases |tweets|
  {
    if tweets != [] && !s.halted {
      var s1 := PostTweetStep(s, conf, tweets[0]);
      PostTweetsFrame(s1, conf, tweets[1..]);
    }
  }

  /** What every handler keeps: the old log is a strict prefix of the new one. */
  predicate Appends(s: State, r: State) {
    s.effects < r.effects
  }

  lemma EmitAppends(s: State, e: Effect)
    ensures Appends(s, Emit(s, e))
  {
    assert Emit(s, e).effects[..|s.effects|] == s.effects;
  }

  lemma AppendsTrans(s: State, s1: State, r: State)
    requires s.effects <= s1.effects && Appends(s1, r)
    ensures Appends(s, r)
  {
  }

  lemma FriendshipFrame(s: State, post: Post, args: seq<string>, world: World, follow: bool)
    ensures var r := FriendshipStep(s, post, args, world, follow);
      Appends(s, r) && r.trusted == s.trusted && r.lastPost == s.lastPost
  {
    if !IsTrusted(s.trusted, post.userId) {
      EmitAppends(s, ChatPost(post.channelId, post.id, NotTrusted));
    } else if |args| == 0 {
      EmitAppends(s, Panicked(IndexOutOfRange));
    } else {
      var handle := Handle(args[0]);
      var s1 := Emit(s, if follow then CreateFriendship(handle) else DestroyFriendship(handle));
      EmitAppends(s, if follow then CreateFriendship(handle) else DestroyFriendship(handle));
      var msg := match (if follow then world.createFriendship(handle) else world.destroyFriendship(handle))
        case Some(err) => "Something went wrong: " + err
        case None => OkReply;
      EmitAppends(s1, ChatPost(post.channelId, post.id, msg));
      AppendsTrans(s, s1, ReplyTo(s1, post, msg));
    }
  }

  /**
    A trusted follow or unfollow with an argument asks Twitter once about the
    handle (the argument without surrounding white space and one leading `@`),
    then replies "Ok!" exactly when the call reported no error.
  */
  lemma FriendshipRequested(s: State, post: Post, args: seq<string>, world: World, follow: bool)
    requires IsTrusted(s.trusted, post.userId) && |args| > 0
    ensures var handle := Handle(args[0]);
      var err := if follow then world.createFriendship(handle) else world.destroyFriendship(handle);
      var reply := if err.None? then OkReply else "Something went wrong: " + err.value;
      && FriendshipStep(s, post, args, world, follow)
           == s.(effects := s.effects + [if follow then CreateFriendship(handle) else DestroyFriendship(handle),
                                         ChatPost(post.channelId, post.id, reply)])
      && (reply == OkReply <==> err.None?)
  {
    var handle := Handle(args[0]);
    var req := if follow then CreateFriendship(handle) else DestroyFriendship(handle);
    var err := if follow then world.createFriendship(handle) else world.destroyFriendship(handle);
    var reply := if err.None? then OkReply else "Something went wrong: " + err.value;
    var chat := ChatPost(post.channelId, post.id, reply);
    assert FriendshipStep(s, post, args, world, follow) == ReplyTo(Emit(s, req), post, reply);
    EmitThenAppend(s, req, [chat]);
    assert [req] + [chat] == [req, chat];
    if err.Some? {
      assert |reply| > |OkReply|;
    }
  }

  /** A trusted follow or unfollow with no argument reads past the end of the list: the process panics. */
  lemma FriendshipMissingArgumentPanics(s: State, post: Post, world: World, follow: bool)
    requires IsTrusted(s.trusted, post.userId)
    ensures var r := FriendshipStep(s, post, [], world, follow);
      r == s.(effects := s.effects + [Panicked(IndexOutOfRange)], halted := true)
  {
  }

  lemma SetTrustFrame(s: State, post: Post, args: seq<string>, world: World, value: bool)
    ensures var r := SetTrustStep(s, post, args, world, value);
      Appends(s, r) && s.trusted.Keys <= r.trusted.Keys && r.lastPost == s.lastPost
  {
  }

  lemma ClearFrame(s: State, conf: Config, post: Post, world: World)
    ensures var r := ClearStep(s, conf, post, world);
      Appends(s, r) && r.trusted == s.trusted && r.lastPost == s.lastPost
  {
    if IsTrusted(s.trusted, post.userId) && conf.debugChannel.Some? {
      var run := HistoryRun(world.debugHistory, 0, conf.botId, world.deletePost);
      var s1 := s.(effects := s.effects + DeleteRequests(Attempted(run)));
      assert s.effects <= s1.effects;
    }
  }

  lemma FollowersFrame(s: State, post: Post, world: World)
    ensures var r := FollowersStep(s, post, world);
      Appends(s, r) && r.trusted == s.trusted && r.lastPost == s.lastPost
  {
  }

  lemma CheckFrame(s: State, conf: Config, post: Post, world: World)
    ensures var r := CheckStep(s, conf, post, world);
      Appends(s, r) && r.trusted == s.trusted && s.lastPost <= r.lastPost
  {
    if IsTrusted(s.trusted, post.userId) {
      match world.homeTimeline(conf.maxTweets, s.lastPost)
      case Failure(_) =>
      case Success(tweets) =>
        var s0 := Save(s.(lastPost := MaxId(s.lastPost, tweets)));
        MaxIdBounds(s.lastPost, tweets);
        PostTweetsFrame(s0, conf, tweets);
    }
  }

  /**
    A command never rewrites what was already sent or saved and always adds to it;
    only trust and distrust touch the store, and they never remove a user from it;
    only check moves the cursor.
  */
  lemma CommandAppends(s: State, conf: Config, c: Command, post: Post, args: seq<string>, world: World)
    ensures var r := CommandStep(s, conf, c, post, args, world);
      && s.effects < r.effects
      && s.trusted.Keys <= r.trusted.Keys
      && (c != Trust && c != Distrust ==> r.trusted == s.trusted)
      && (c != Check ==> r.lastPost == s.lastPost)
      && s.lastPost <= r.lastPost
  {
    match c
    case Ping =>
    case Follow => FriendshipFrame(s, post, args, world, true);
    case Unfollow => FriendshipFrame(s, post, args, world, false);
    case Followers => FollowersFrame(s, post, world);
    case Trust => SetTrustFrame(s, post, args, world, true);
    case Distrust => SetTrustFrame(s, post, args, world, false);
    case Check => CheckFrame(s, conf, post, world);
    case Clear => ClearFrame(s, conf, post, world);
  }

  /** `handleWebSocketEvent` leaves the state exactly as it was when, and only when, it drops the event. */
  lemma IgnoredIffNothingHappens(s: State, conf: Config, ev: WsEvent, world: World, order: seq<string>)
    ensures EventStep(s, conf, ev, world, order) == s <==> Ignored(conf, ev)
  {
    if !Ignored(conf, ev) {
      var post := ev.post.value;
      var (name, args) := ParseCommand(post.message, conf.botName, ev.channelType == "D").value;
      match Lookup(name)
      case Some(c) =>
        CommandAppends(s, conf, c, post, args, world);
      case None =>
    }
  }

  /** Once anyone is in the store the store stays closed: no event empties it. */
  lemma StoreNeverReopens(s: State, conf: Config, ev: WsEvent, world: World, order: seq<string>)
    ensures s.trusted.Keys <= EventStep(s, conf, ev, world, order).trusted.Keys
  {
    if !Ignored(conf, ev) {
      var post := ev.post.value;
      var (name, args) := ParseCommand(post.message, conf.botName, ev.channelType == "D").value;
      match Lookup(name)
      case Some(c) =>
        CommandAppends(s, conf, c, post, args, world);
      case None =>
    }
  }

  /** Every command but ping is refused to a user the store does not trust, and nothing else happens. */
  lemma UntrustedCallerRefused(s: State, conf: Config, c: Command, post: Post, args: seq<string>, world: World)
    requires c != Ping
    requires !IsTrusted(s.trusted, post.userId)
    ensures CommandStep(s, conf, c, post, args, world).effects == s.effects + [ChatPost(post.channelId, post.id, NotTrusted)]
    ensures CommandStep(s, conf, c, post, args, world).trusted == s.trusted
  {
  }

  /** A command word outside the registry gets the help text, which names every command. */
  lemma UnknownCommandGetsHelp(s: State, conf: Config, ev: WsEvent, world: World, order: seq<string>)
    requires IsRegistryOrder(order)
    requires !Ignored(conf, ev)
    requires ParseCommand(ev.post.value.message, conf.botName, ev.channelType == "D").value.0 !in Registry
    ensures var r := EventStep(s, conf, ev, world, order);
      && r.trusted == s.trusted && r.lastPost == s.lastPost
      && |r.effects| == |s.effects| + 1 && r.effects[..|s.effects|] == s.effects
      && r.effects[|s.effects|].ChatPost?
      && r.effects[|s.effects|].rootId == ev.post.value.id
      && HasPrefix(r.effects[|s.effects|].message, Apology)
      && (forall n :: n in Registry ==> Contains(r.effects[|s.effects|].message, n))
  {
    HelpNamesEveryCommand(order);
    var r := EventStep(s, conf, ev, world, order);
    assert r.effects == s.effects + [ChatPost(ev.post.value.channelId, ev.post.value.id, HelpMessage(Join(order, ", ")))];
  }

  /** The feed cursor never moves back, whatever the event. */
  lemma CursorNeverDecreases(s: State, conf: Config, ev: WsEvent, world: World, order: seq<string>)
    ensures s.lastPost <= EventStep(s, conf, ev, world, order).lastPost
  {
    if !Ignored(conf, ev) {
      var post := ev.post.value;
      var (name, args) := ParseCommand(post.message, conf.botName, ev.channelType == "D").value;
      match Lookup(name)
      case Some(c) =>
        CommandAppends(s, conf, c, post, args, world);
      case None =>
    }
  }

  // ----- trust and distrust -----

  /** An untrusted caller, a missing argument or a failed lookup: one reply, the store unchanged, no save. */
  lemma SetTrustRefused(s: State, post: Post, args: seq<string>, world: World, value: bool)
    requires !IsTrusted(s.trusted, post.userId) || |args| == 0 || Target(post, args[0], world).Failure?
    ensures var r := SetTrustStep(s, post, args, world, value);
      && r.trusted == s.trusted && r.lastPost == s.lastPost
      && |r.effects| == |s.effects| + 1 && r.effects[..|s.effects|] == s.effects
      && r.effects[|s.effects|].ChatPost? && r.effects[|s.effects|].rootId == post.id
  {
  }

  /**
    A resolved target: only its entry changes, to `value`; the bot saves exactly when
    that changed the store, and the save precedes the reply.
  */
  lemma SetTrustApplied(s: State, post: Post, args: seq<string>, world: World, value: bool)
    requires IsTrusted(s.trusted, post.userId) && |args| > 0 && Target(post, args[0], world).Success?
    ensures var uid := Target(post, args[0], world).value;
      var r := SetTrustStep(s, post, args, world, value);
      var changed := r.trusted != s.trusted;
      && r.trusted == s.trusted[uid := value]
      && IsTrusted(r.trusted, uid) == value
      && r.lastPost == s.lastPost
      && r.effects == s.effects
           + (if changed then [Saved(BotData(r.trusted, s.lastPost))] else [])
           + [ChatPost(post.channelId, post.id,
                    if changed then OkReply else if value then "already trusted" else "already distrusted")]
  {
    var uid := Target(post, args[0], world).value;
    SetEntry(s.trusted, uid, value, uid);
    if uid in s.trusted && s.trusted[uid] == value {
      assert s.trusted[uid := value] == s.trusted;
    } else {
      assert s.trusted[uid := value] != s.trusted by {
        assert s.trusted[uid := value][uid] == value;
      }
    }
  }

  /** Trusting someone in an empty store succeeds for any caller and closes the store to all but them. */
  lemma FirstTrustClosesStore(s: State, post: Post, arg: string, world: World, uid: string)
    requires s.trusted == map[]
    requires arg != "me" && world.lookupUser(TrimPrefix(TrimSpace(arg), "@")) == Success(uid)
    ensures var r := SetTrustStep(s, post, [arg], world, true);
      && r.trusted == map[uid := true]
      && r.effects == s.effects + [Saved(BotData(map[uid := true], s.lastPost)), ChatPost(post.channelId, post.id, OkReply)]
      && (forall u :: IsTrusted(r.trusted, u) <==> u == uid)
  {
    forall u ensures IsTrusted(map[uid := true], u) <==> u == uid {
      FirstEntryClosesOpenTrust(uid, true, u);
    }
  }

  // ----- timeline -----

  function Ids(tweets: seq<Tweet>): (r: seq<int>)
    ensures |r| == |tweets|
  {
    seq(|tweets|, k requires 0 <= k < |tweets| => tweets[k].id)
  }

  /** The new cursor is the largest of the old one and the fetched ids. */
  lemma {:induction false} MaxIdBounds(cursor: int, tweets: seq<Tweet>)
    ensures cursor <= MaxId(cursor, tweets)
    ensures forall k :: 0 <= k < |tweets| ==> tweets[k].id <= MaxId(cursor, tweets)
    ensures MaxId(cursor, tweets) == cursor || MaxId(cursor, tweets) in Ids(tweets)
    decreases |tweets|
  {
    if tweets != [] {
      var c1 := if tweets[0].id > cursor then tweets[0].id else cursor;
      MaxIdBounds(c1, tweets[1..]);
      assert Ids(tweets[1..]) == Ids(tweets)[1..];
      assert c1 == cursor || c1 == Ids(tweets)[0];
      forall k | 0 <= k < |tweets| ensures tweets[k].id <= MaxId(cursor, tweets) {
        if k > 0 {
          assert tweets[k] == tweets[1..][k - 1];
        }
      }
    }
  }

  /** The order of a batch does not matter to the cursor. */
  lemma MaxIdOrderFree(cursor: int, a: seq<Tweet>, b: seq<Tweet>)
    requires multiset(Ids(a)) == multiset(Ids(b))
    ensures MaxId(cursor, a) == MaxId(cursor, b)
  {
    MaxIdBounds(cursor, a);
    MaxIdBounds(cursor, b);
    var ma, mb := MaxId(cursor, a), MaxId(cursor, b);
    if ma != cursor {
      assert ma in multiset(Ids(b));
      var k :| 0 <= k < |b| && Ids(b)[k] == ma;
      assert b[k].id <= mb;
    }
    if mb != cursor {
      assert mb in multiset(Ids(a));
      var k :| 0 <= k < |a| && Ids(a)[k] == mb;
      assert a[k].id <= ma;
    }
  }

  /** A cursor of 100 and a batch with ids 101, 103, 102 move the cursor to 103. */
  lemma CursorExample(tweets: seq<Tweet>)
    requires |tweets| == 3 && tweets[0].id == 101 && tweets[1].id == 103 && tweets[2].id == 102
    ensures MaxId(100, tweets) == 103
  {
    assert MaxId(100, tweets) == MaxId(101, tweets[1..]);
    assert MaxId(101, tweets[1..]) == MaxId(103, tweets[2..]) by { assert tweets[1..][1..] == tweets[2..]; }
    assert MaxId(103, tweets[2..]) == MaxId(103, tweets[3..]) by { assert tweets[2..][1..] == tweets[3..]; }
    assert tweets[3..] == [];
  }

  predicate AllRender(tweets: seq<Tweet>) {
    forall k :: 0 <= k < |tweets| ==> Attachments(tweets[k]).Some?
  }

  /** One post in `channelId` per tweet, in batch order. */
  function Forwarded(channelId: string, tweets: seq<Tweet>): (r: seq<Effect>)
    requires AllRender(tweets)
    ensures |r| == |tweets|
    ensures forall k :: 0 <= k < |tweets| ==> r[k] == TweetPost(channelId, Attachments(tweets[k]).value)
    decreases |tweets|
  {
    if tweets == [] then []
    else
      assert AllRender(tweets[1..]) by {
        forall k | 0 <= k < |tweets| - 1 ensures Attachments(tweets[1..][k]).Some? {
          assert tweets[1..][k] == tweets[k + 1];
        }
      }
      [TweetPost(channelId, Attachments(tweets[0]).value)] + Forwarded(channelId, tweets[1..])
  }

  /** Dropping a rendered first tweet from a batch that renders. */
  lemma RenderedTail(channelId: string, tweets: seq<Tweet>)
    requires AllRender(tweets) && tweets != []
    ensures AllRender(tweets[1..])
    ensures Forwarded(channelId, tweets) == [TweetPost(channelId, Attachments(tweets[0]).value)] + Forwarded(channelId, tweets[1..])
  {
    forall k | 0 <= k < |tweets| - 1 ensures Attachments(tweets[1..][k]).Some? {
      assert tweets[1..][k] == tweets[k + 1];
    }
  }

  /**
    Posting the first tweet of a batch, when it renders: `x` is its post, which is
    also the first of the posts `head` forwards when `head` starts with that tweet.
  */
  lemma FirstPosted(s: State, conf: Config, tweets: seq<Tweet>, head: seq<Tweet>) returns (x: Effect)
    requires !s.halted && AllRender(head) && head != [] && tweets != [] && head[0] == tweets[0]
    ensures PostTweets(s, conf, tweets) == PostTweets(Emit(s, x), conf, tweets[1..])
    ensures !Emit(s, x).halted && AllRender(head[1..])
    ensures Forwarded(conf.channelId, head) == [x] + Forwarded(conf.channelId, head[1..])
  {
    x := TweetPost(conf.channelId, Attachments(tweets[0]).value);
    RenderedTail(conf.channelId, head);
  }

  lemma EmitThenAppend(s: State, x: Effect, f: seq<Effect>)
    ensures Emit(s, x).(effects := Emit(s, x).effects + f) == s.(effects := s.effects + ([x] + f))
  {
    assert s.effects + ([x] + f) == (s.effects + [x]) + f;
  }

  /** When every tweet renders, each is posted once, in batch order, and nothing else happens. */
  lemma {:induction false} PostTweetsAll(s: State, conf: Config, tweets: seq<Tweet>)
    requires !s.halted && AllRender(tweets)
    ensures PostTweets(s, conf, tweets) == s.(effects := s.effects + Forwarded(conf.channelId, tweets))
    decreases |tweets|
  {
    if tweets == [] {
      assert s.effects + Forwarded(conf.channelId, tweets) == s.effects;
    } else {
      var x := FirstPosted(s, conf, tweets, tweets);
      PostTweetsAll(Emit(s, x), conf, tweets[1..]);
      EmitThenAppend(s, x, Forwarded(conf.channelId, tweets[1..]));
    }
  }

  /** The first tweet that does not render ends the batch, and the bot, after the ones before it. */
  lemma {:induction false} PostTweetsStopsAtPanic(s: State, conf: Config, tweets: seq<Tweet>, k: nat)
    requires !s.halted && k < |tweets| && AllRender(tweets[..k]) && Attachments(tweets[k]).None?
    ensures PostTweets(s, conf, tweets)
      == s.(effects := s.effects + Forwarded(conf.channelId, tweets[..k]) + [Panicked(NilDereference)], halted := true)
    decreases k
  {
    if k == 0 {
      assert tweets[..k] == [];
      PostTweetsFrame(PostTweetStep(s, conf, tweets[0]), conf, tweets[1..]);
    } else {
      var head := tweets[..k];
      var x := FirstPosted(s, conf, tweets, head);
      var rest := tweets[1..];
      assert rest[..k - 1] == head[1..];
      assert rest[k - 1] == tweets[k];
      PostTweetsStopsAtPanic(Emit(s, x), conf, rest, k - 1);
      EmitThenAppend(s, x, Forwarded(conf.channelId, head[1..]));
    }
  }

  /** A failed fetch is logged; the cursor, the store and the saved record stay as they were. */
  lemma TimelineFetchFailed(s: State, conf: Config, world: World)
    requires world.homeTimeline(conf.maxTweets, s.lastPost).Failure?
    ensures var r := CheckTimelineStep(s, conf, world);
      && r.trusted == s.trusted && r.lastPost == s.lastPost && r.halted == s.halted
      && r == LogStep(s, conf, "checkTimeline error: " + world.homeTimeline(conf.maxTweets, s.lastPost).error)
      && |r.effects| == |s.effects| + 1 && r.effects[..|s.effects|] == s.effects
      && !r.effects[|s.effects|].Saved? && !r.effects[|s.effects|].TweetPost?
  {
  }

  /**
    A fetched batch moves the cursor past every tweet in it, saves it once, and
    only then posts every tweet once, in batch order.
  */
  lemma TimelineForwardsAll(s: State, conf: Config, world: World)
    requires !s.halted
    requires world.homeTimeline(conf.maxTweets, s.lastPost).Success?
    requires AllRender(world.homeTimeline(conf.maxTweets, s.lastPost).value)
    ensures var tweets := world.homeTimeline(conf.maxTweets, s.lastPost).value;
      var r := CheckTimelineStep(s, conf, world);
      && s.lastPost <= r.lastPost
      && (forall k :: 0 <= k < |tweets| ==> tweets[k].id <= r.lastPost)
      && (r.lastPost == s.lastPost || r.lastPost in Ids(tweets))
      && r.trusted == s.trusted && !r.halted
      && r.effects == s.effects + [Saved(BotData(s.trusted, r.lastPost))] + Forwarded(conf.channelId, tweets)
  {
    var tweets := world.homeTimeline(conf.maxTweets, s.lastPost).value;
    MaxIdBounds(s.lastPost, tweets);
    PostTweetsAll(Save(s.(lastPost := MaxId(s.lastPost, tweets))), conf, tweets);
  }

  // ----- clear -----

  /** The ids of the bot's own top-level posts in a page from position `i` on, in page order. */
  function OwnIds(list: seq<Post>, i: nat, botId: string): seq<string>
    decreases |list| - i
  {
    if i >= |list| then []
    else (if OwnTopLevel(list[i], botId) then [list[i].id] else []) + OwnIds(list, i + 1, botId)
  }

  /** The ids of the bot's own top-level posts on the pages read from `page` up to the first empty or unreadable one. */
  function AllOwnIds(pages: seq<Result<seq<Post>, string>>, page: nat, botId: string): seq<string>
    decreases |pages| - page
  {
    if page >= |pages| then []
    else
      match pages[page]
      case Failure(_) => []
      case Success(list) => if |list| == 0 then [] else OwnIds(list, 0, botId) + AllOwnIds(pages, page + 1, botId)
  }

  predicate AllDeleted(ids: seq<string>, deletePost: string -> Option<string>) {
    forall k :: 0 <= k < |ids| ==> deletePost(ids[k]).None?
  }

  lemma AllDeletedConcat(a: seq<string>, b: seq<string>, deletePost: string -> Option<string>)
    ensures AllDeleted(a + b, deletePost) <==> AllDeleted(a, deletePost) && AllDeleted(b, deletePost)
  {
    if AllDeleted(a, deletePost) && AllDeleted(b, deletePost) {
      forall k | 0 <= k < |a + b| ensures deletePost((a + b)[k]).None? {
        if k >= |a| {
          assert (a + b)[k] == b[k - |a|];
        }
      }
    }
    if AllDeleted(a + b, deletePost) {
      forall k | 0 <= k < |a| ensures deletePost(a[k]).None? {
        assert (a + b)[k] == a[k];
      }
      forall k | 0 <= k < |b| ensures deletePost(b[k]).None? {
        assert (a + b)[|a| + k] == b[k];
      }
    }
  }

  /**
    One page: only the bot's own top-level posts are deleted, in page order; the
    run ends at the first deletion that fails, and it ends cleanly exactly when
    every such post could be deleted.
  */
  lemma {:induction false} PageRunSpec(list: seq<Post>, i: nat, botId: string, deletePost: string -> Option<string>)
    ensures var r := PageRun(list, i, botId, deletePost);
      && !r.outcome.FetchFailed?
      && AllDeleted(r.deleted, deletePost)
      && Attempted(r) <= OwnIds(list, i, botId)
      && (r.outcome.Cleared? ==> r.deleted == OwnIds(list, i, botId))
      && (r.outcome.DeleteFailed? ==>
            OwnTopLevel(r.outcome.post, botId) && deletePost(r.outcome.post.id) == Some(r.outcome.error))
      && (r.outcome.Cleared? <==> AllDeleted(OwnIds(list, i, botId), deletePost))
    decreases |list| - i
  {
    if i < |list| {
      var r := PageRun(list, i, botId, deletePost);
      var tail := PageRun(list, i + 1, botId, deletePost);
      PageRunSpec(list, i + 1, botId, deletePost);
      var own := if OwnTopLevel(list[i], botId) then [list[i].id] else [];
      assert OwnIds(list, i, botId) == own + OwnIds(list, i + 1, botId);
      AllDeletedConcat(own, OwnIds(list, i + 1, botId), deletePost);
      if OwnTopLevel(list[i], botId) {
        match deletePost(list[i].id)
        case Some(err) =>
          assert Attempted(r) == [list[i].id];
          assert OwnIds(list, i, botId)[0] == list[i].id;
        case None =>
          assert r == Prepend([list[i].id], tail);
          AllDeletedConcat([list[i].id], tail.deleted, deletePost);
          assert Attempted(r) == [list[i].id] + Attempted(tail);
      }
    }
  }

  /**
    The whole history: the deleted ids are the bot's own top-level posts, page by
    page, up to the first failed deletion, and all of them when no deletion failed.
  */
  lemma {:induction false} HistoryRunSpec(pages: seq<Result<seq<Post>, string>>, page: nat, botId: string, deletePost: string -> Option<string>)
    ensures var r := HistoryRun(pages, page, botId, deletePost);
      && AllDeleted(r.deleted, deletePost)
      && Attempted(r) <= AllOwnIds(pages, page, botId)
      && (!r.outcome.DeleteFailed? ==> r.deleted == AllOwnIds(pages, page, botId))
      && (r.outcome.DeleteFailed? ==>
            OwnTopLevel(r.outcome.post, botId) && deletePost(r.outcome.post.id) == Some(r.outcome.error))
    decreases |pages| - page
  {
    var r := HistoryRun(pages, page, botId, deletePost);
    if page < |pages| && pages[page].Success? {
      var list := pages[page].value;
      var r1 := PageRun(list, 0, botId, deletePost);
      PageRunSpec(list, 0, botId, deletePost);
      if r1.outcome.Cleared? && |list| > 0 {
        var rest := HistoryRun(pages, page + 1, botId, deletePost);
        var later := AllOwnIds(pages, page + 1, botId);
        HistoryRunSpec(pages, page + 1, botId, deletePost);
        assert r == Prepend(r1.deleted, rest);
        assert AllOwnIds(pages, page, botId) == r1.deleted + later;
        AllDeletedConcat(r1.deleted, rest.deleted, deletePost);
        AttemptedPrepend(r1.deleted, rest);
        assert Attempted(rest) <= later;
        assert r1.deleted + Attempted(rest) <= r1.deleted + later;
      } else if |list| == 0 {
        assert r == ClearRun([], Cleared);
      } else {
        assert r == r1;
        assert AllOwnIds(pages, page, botId) == OwnIds(list, 0, botId) + AllOwnIds(pages, page + 1, botId);
      }
    }
  }

  /**
    `handleClear` for a trusted caller with a debug channel: the deletions asked
    for are a prefix of the bot's own top-level posts, then one reply follows;
    "done!" is replied only when every one of those posts was deleted.
  */
  lemma ClearDeletesOnlyOwnPosts(s: State, conf: Config, post: Post, world: World) returns (ids: seq<string>)
    requires IsTrusted(s.trusted, post.userId) && conf.debugChannel.Some?
    ensures var r := ClearStep(s, conf, post, world);
      var all := AllOwnIds(world.debugHistory, 0, conf.botId);
      && r.trusted == s.trusted && r.lastPost == s.lastPost
      && ids <= all
      && |r.effects| == |s.effects| + |ids| + 1
      && r.effects[..|s.effects| + |ids|] == s.effects + DeleteRequests(ids)
      && r.effects[|s.effects| + |ids|].ChatPost?
      && (r.effects[|s.effects| + |ids|].message == DoneReply ==> ids == all && AllDeleted(all, world.deletePost))
  {
    var run := HistoryRun(world.debugHistory, 0, conf.botId, world.deletePost);
    HistoryRunSpec(world.debugHistory, 0, conf.botId, world.deletePost);
    ids := Attempted(run);
    var s1 := s.(effects := s.effects + DeleteRequests(ids));
    var reply := match run.outcome
      case Cleared => ChatPost(post.channelId, post.id, DoneReply)
      case FetchFailed(err) => ChatPost(post.channelId, post.id, "error: " + err)
      case DeleteFailed(p, err) => ChatPost(p.channelId, p.id, "error: " + err);
    assert ClearStep(s, conf, post, world) == Emit(s1, reply);
    assert |s1.effects| == |s.effects| + |ids|;
    assert (s1.effects + [reply])[..|s1.effects|] == s1.effects;
    assert (s1.effects + [reply])[|s1.effects|] == reply;
    if !run.outcome.Cleared? {
      assert |reply.message| > |DoneReply|;
    }
  }

  /** Without a debug channel nothing is deleted: one reply says so. */
  lemma ClearNeedsDebugChannel(s: State, conf: Config, post: Post, world: World)
    requires conf.debugChannel.None?
    ensures ClearStep(s, conf, post, world).effects == s.effects + [ChatPost(post.channelId, post.id,
      if IsTrusted(s.trusted, post.userId) then NoDebugChannel else NotTrusted)]
  {
  }

  /** The pages `handleClear` reads end at the first empty or unreadable one. */
  predicate HistoryEndsWithin(pages: seq<Result<seq<Post>, string>>, page: nat)
    decreases |pages| - page
  {
    page < |pages| && (pages[page].Failure? || |pages[page].value| == 0 || HistoryEndsWithin(pages, page + 1))
  }

  /** No page after the first empty or unreadable one is ever read. */
  lemma {:induction false} ClearReadsNoFurther(pages: seq<Result<seq<Post>, string>>, more: seq<Result<seq<Post>, string>>,
                                               page: nat, botId: string, deletePost: string -> Option<string>)
    requires HistoryEndsWithin(pages, page)
    ensures HistoryRun(pages + more, page, botId, deletePost) == HistoryRun(pages, page, botId, deletePost)
    decreases |pages| - page
  {
    assert (pages + more)[page] == pages[page];
    if pages[page].Success? && |pages[page].value| > 0 {
      ClearReadsNoFurther(pages, more, page + 1, botId, deletePost);
    }
  }

  // ----- followers -----

  /** The calls `handleFollowers` makes end at an error, an empty page or a zero cursor. */
  predicate FriendsEndWithin(pages: seq<Result<FriendPage, string>>, i: nat)
    decreases |pages| - i
  {
    && i < |pages|
    && (|| pages[i].Failure?
        || |pages[i].value.screenNames| == 0
        || pages[i].value.nextCursor == 0
        || FriendsEndWithin(pages, i + 1))
  }

  /** No call is made after the one whose answer ends the loop. */
  lemma {:induction false} FollowersReadNoFurther(pages: seq<Result<FriendPage, string>>, more: seq<Result<FriendPage, string>>, i: nat)
    requires FriendsEndWithin(pages, i)
    ensures FollowedFrom(pages + more, i) == FollowedFrom(pages, i)
    decreases |pages| - i
  {
    assert (pages + more)[i] == pages[i];
    if pages[i].Success? && |pages[i].value.screenNames| > 0 && pages[i].value.nextCursor != 0 {
      FollowersReadNoFurther(pages, more, i + 1);
    }
  }

  /**
    A listing whose every call succeeded and where only the last page may end the
    loop: every earlier page has names and a non-zero cursor. The last page may be
    empty (a user with no friends, or an empty page after a non-zero cursor).
  */
  predicate ErrorFreeListing(pages: seq<Result<FriendPage, string>>) {
    && (forall j :: 0 <= j < |pages| ==> pages[j].Success?)
    && (forall j :: 0 <= j < |pages| - 1 ==> |pages[j].value.screenNames| > 0 && pages[j].value.nextCursor != 0)
  }

  function Flatten(pages: seq<Result<FriendPage, string>>): seq<string>
    requires forall j :: 0 <= j < |pages| ==> pages[j].Success?
  {
    if |pages| == 0 then [] else pages[0].value.screenNames + Flatten(pages[1..])
  }

  /** Over an error-free listing the bot collects every page's names from call `i` on, in order. */
  lemma {:induction false} FollowersCollectsEveryPage(pages: seq<Result<FriendPage, string>>, i: nat)
    requires ErrorFreeListing(pages) && i <= |pages|
    ensures FollowedFrom(pages, i) == Success(Flatten(pages[i..]))
    decreases |pages| - i
  {
    if i < |pages| {
      var names := pages[i].value.screenNames;
      assert pages[i..][0] == pages[i];
      assert pages[i..][1..] == pages[i + 1..];
      assert Flatten(pages[i..]) == names + Flatten(pages[i + 1..]);
      if |names| == 0 || pages[i].value.nextCursor == 0 {
        assert i == |pages| - 1;
        assert pages[i + 1..] == [];
        assert names + [] == names;
      } else {
        FollowersCollectsEveryPage(pages, i + 1);
      }
    }
  }

  /** Dropping the pages before the `i`-th call. */
  lemma {:induction false} FollowedShift(pages: seq<Result<FriendPage, string>>, i: nat)
    requires i <= |pages|
    ensures FollowedFrom(pages, i) == FollowedFrom(pages[i..], 0)
    decreases |pages| - i
  {
    if i < |pages| {
      assert pages[i..][0] == pages[i];
      match pages[i]
      case Failure(_) =>
      case Success(pg) =>
        FollowedShift(pages, i + 1);
        FollowedShift(pages[i..], 1);
        assert pages[i..][1..] == pages[i + 1..];
    }
  }

  /** The reply names every followed account, each between double quotes. */
  lemma FollowersReplyNamesEach(s: State, post: Post, world: World, k: nat)
    requires IsTrusted(s.trusted, post.userId)
    requires FollowedFrom(world.friendPages, 0).Success? && k < |FollowedFrom(world.friendPages, 0).value|
    ensures var names := FollowedFrom(world.friendPages, 0).value;
      var r := FollowersStep(s, post, world);
      && r.effects == s.effects + [ChatPost(post.channelId, post.id, "I'm following: " + GoStringSlice(names))]
      && Contains(GoStringSlice(names), "\"" + names[k] + "\"")
  {
    var names := FollowedFrom(world.friendPages, 0).value;
    var quoted := Quoted(names);
    JoinContainsEach(quoted, ", ", k);
    ContainsInLeft(Join(quoted, ", "), "}", quoted[k]);
    ContainsInRight("[]string{", Join(quoted, ", ") + "}", quoted[k]);
    assert "[]string{" + Join(quoted, ", ") + "}" == "[]string{" + (Join(quoted, ", ") + "}");
  }
}
