/**
  The bot object of `internal/bot.go`. Its mutable fields are the persisted
  record (`trusted`, `lastPost`), the log of everything it has sent or saved,
  and whether the process has panicked. Every handler is proved to move the
  object from state `s` to the state its `BotSpec` step function gives for `s`.
*/
module Internal {
  import opened Wrappers
  import opened GoStrings
  import opened TrustStore
  import opened Commands
  import opened Tweets
  import opened BotSpec

  class Bot {
    const conf: Config
    var trusted: map<string, bool>
    var lastPost: int
    var effects: seq<Effect>
    var halted: bool

    /** The object's state as a value. */
    function St(): State
      reads this
    {
      State(trusted, lastPost, effects, halted)
    }

    /** `NewBot` followed by `loadData`, with the record that was read. */
    constructor(conf: Config, data: BotData)
      ensures this.conf == conf
      ensures St() == State(data.trusted, data.lastPost, [], false)
    {
      this.conf := conf;
      trusted := data.trusted;
      lastPost := data.lastPost;
      effects := [];
      halted := false;
    }

    method ReplyToPost(msg: string, post: Post)
      modifies this
      ensures St() == ReplyTo(old(St()), post, msg)
    {
      effects := effects + [ChatPost(post.channelId, post.id, msg)];
    }

    method SaveData()
      modifies this
      ensures St() == Save(old(St()))
    {
      effects := effects + [Saved(BotData(trusted, lastPost))];
    }

    method Logf(msg: string)
      modifies this
      ensures St() == LogStep(old(St()), conf, msg)
    {
      if conf.debugChannel.None? {
        effects := effects + [Logged("DebugChannel: " + msg)];
        return;
      }
      effects := effects + [ChatPost(conf.debugChannel.value, "", msg)];
    }

    /** A Go runtime panic: the process stops. */
    method RaisePanic(reason: string)
      modifies this
      ensures St() == Panic(old(St()), reason)
    {
      effects := effects + [Panicked(reason)];
      halted := true;
    }

    method HandlePing(post: Post, args: seq<string>)
      modifies this
      ensures St() == PingStep(old(St()), post)
    {
      ReplyToPost("pong", post);
    }

    method HandleFollow(post: Post, args: seq<string>, world: World)
      modifies this
      ensures St() == FriendshipStep(old(St()), post, args, world, true)
    {
      if !IsTrusted(trusted, post.userId) {
        ReplyToPost(NotTrusted, post);
        return;
      }
      if |args| == 0 {
        RaisePanic(IndexOutOfRange);
        return;
      }
      var handle := Handle(args[0]);
      effects := effects + [CreateFriendship(handle)];
      var err := world.createFriendship(handle);
      if err.Some? {
        ReplyToPost("Something went wrong: " + err.value, post);
        return;
      }
      ReplyToPost(OkReply, post);
    }

    method HandleUnfollow(post: Post, args: seq<string>, world: World)
      modifies this
      ensures St() == FriendshipStep(old(St()), post, args, world, false)
    {
      if !IsTrusted(trusted, post.userId) {
        ReplyToPost(NotTrusted, post);
        return;
      }
      if |args| == 0 {
        RaisePanic(IndexOutOfRange);
        return;
      }
      var handle := Handle(args[0]);
      effects := effects + [DestroyFriendship(handle)];
      var err := world.destroyFriendship(handle);
      if err.Some? {
        ReplyToPost("Something went wrong: " + err.value, post);
        return;
      }
      ReplyToPost(OkReply, post);
    }

    method HandleTrust(post: Post, args: seq<string>, world: World)
      modifies this
      ensures St() == SetTrustStep(old(St()), post, args, world, true)
    {
      var uid: string;
      if !IsTrusted(trusted, post.userId) {
        ReplyToPost(NotTrusted, post);
        return;
      }
      if |args| == 0 {
        ReplyToPost(MissingArgument, post);
        return;
      }
      if args[0] == "me" {
        uid := post.userId;
      } else {
        var userName := Handle(args[0]);
        var res := world.lookupUser(userName);
        if res.Failure? {
          ReplyToPost("error: " + res.error, post);
          return;
        }
        uid := res.value;
      }
      if uid in trusted && trusted[uid] {
        ReplyToPost("already trusted", post);
        return;
      }
      trusted := trusted[uid := true];
      SaveData();
      ReplyToPost(OkReply, post);
    }

    method HandleDistrust(post: Post, args: seq<string>, world: World)
      modifies this
      ensures St() == SetTrustStep(old(St()), post, args, world, false)
    {
      var uid: string;
      if !IsTrusted(trusted, post.userId) {
        ReplyToPost(NotTrusted, post);
        return;
      }
      if |args| == 0 {
        ReplyToPost(MissingArgument, post);
        return;
      }
      if args[0] == "me" {
        uid := post.userId;
      } else {
        var userName := Handle(args[0]);
        var res := world.lookupUser(userName);
        if res.Failure? {
          ReplyToPost("error: " + res.error, post);
          return;
        }
        uid := res.value;
      }
      if uid in trusted && !trusted[uid] {
        ReplyToPost("already distrusted", post);
        return;
      }
      trusted := trusted[uid := false];
      SaveData();
      ReplyToPost(OkReply, post);
    }
  
    /**
      The inner loop of `handleClear` over one page of the debug channel. On a
      failed deletion it replies under the post that could not be deleted (the
      loop variable shadows the command post there) and reports the failure.
    */
    method ClearPage(list: seq<Post>, world: World) returns (failed: bool)
      modifies this
      ensures var r := PageRun(list, 0, conf.botId, world.deletePost);
        && failed == r.outcome.DeleteFailed?
        && trusted == old(trusted) && lastPost == old(lastPost) && halted == old(halted)
        && effects == old(effects) + DeleteRequests(Attempted(r))
             + (if failed then [ChatPost(r.outcome.post.channelId, r.outcome.post.id, "error: " + r.outcome.error)] else [])
    {
      ghost var r := PageRun(list, 0, conf.botId, world.deletePost);
      ghost var pageDone: seq<string> := [];
      var i := 0;
      while i < |list|
        invariant 0 <= i <= |list|
        invariant trusted == old(trusted) && lastPost == old(lastPost) && halted == old(halted)
        invariant effects == old(effects) + DeleteRequests(pageDone)
        invariant r == Prepend(pageDone, PageRun(list, i, conf.botId, world.deletePost))
      {
        var post := list[i];
        ghost var rest := PageRun(list, i + 1, conf.botId, world.deletePost);
        ghost var own := OwnTopLevel(post, conf.botId);
        if own {
          AppendDelete(old(effects), pageDone, post.id);
        }
        var failed := ClearPost(post, world);
        if failed {
          assert r == ClearRun(pageDone, DeleteFailed(post, world.deletePost(post.id).value));
          assert Attempted(r) == pageDone + [post.id];
          return true;
        }
        if own {
          assert PageRun(list, i, conf.botId, world.deletePost) == Prepend([post.id], rest);
          PrependAssoc(pageDone, [post.id], rest);
          pageDone := pageDone + [post.id];
        } else {
          assert PageRun(list, i, conf.botId, world.deletePost) == rest;
        }
        i := i + 1;
      }
      assert r == ClearRun(pageDone, Cleared);
      return false;
    }

    /**
     * One turn of the inner loop of `handleClear`: a post of the bot's own
     * that starts a thread is deleted, with an error reply under it if the
     * delete fails; any other post is skipped.
     */
    method ClearPost(post: Post, world: World) returns (failed: bool)
      modifies this
      ensures failed <==> OwnTopLevel(post, conf.botId) && world.deletePost(post.id).Some?
      ensures St() == old(St()).(effects := old(effects)
                + (if OwnTopLevel(post, conf.botId) then [DeleteRequested(post.id)] else [])
                + (if failed then [ChatPost(post.channelId, post.id, "error: " + world.deletePost(post.id).value)] else []))
    {
      if post.userId != conf.botId {
        return false;
      }
      if |post.parentId| > 0 {
        return false;
      }
      effects := effects + [DeleteRequested(post.id)];
      var err := world.deletePost(post.id);
      if err.Some? {
        ReplyToPost("error: " + err.value, post);
        return true;
      }
      return false;
    }

    method HandleClear(post: Post, args: seq<string>, world: World)
      modifies this
      ensures St() == ClearStep(old(St()), conf, post, world)
    {
      if !IsTrusted(trusted, post.userId) {
        ReplyToPost(NotTrusted, post);
        return;
      }
      if conf.debugChannel.None? {
        ReplyToPost(NoDebugChannel, post);
        return;
      }
      ClearHistory(post, world);
    }

    /** The paging loop of `handleClear`, page number by page number, and its reply. */
    method ClearHistory(post: Post, world: World)
      modifies this
      ensures St() == ClearHistoryStep(old(St()), conf, post, world)
    {
      ghost var s0 := St();
      ghost var run := HistoryRun(world.debugHistory, 0, conf.botId, world.deletePost);
      ghost var done: seq<string> := [];
      assert run == Prepend(done, run);
      var page := 0;
      while true
        invariant trusted == s0.trusted && lastPost == s0.lastPost && halted == s0.halted
        invariant effects == s0.effects + DeleteRequests(done)
        invariant run == Prepend(done, HistoryRun(world.debugHistory, page, conf.botId, world.deletePost))
        decreases |world.debugHistory| - page
      {
        ghost var rest := HistoryRun(world.debugHistory, page, conf.botId, world.deletePost);
        var res := HistoryPage(world.debugHistory, page);
        if res.Failure? {
          assert rest == ClearRun([], FetchFailed(res.error));
          AttemptedPrepend(done, rest);
          assert done + [] == done;
          ReplyToPost("error: " + res.error, post);
          return;
        }
        var list := res.value;
        ghost var r := PageRun(list, 0, conf.botId, world.deletePost);
        ghost var e0 := effects;
        var failed := ClearPage(list, world);
        AppendDeletes(s0.effects, done, Attempted(r));
        if failed {
          assert rest == r;
          AttemptedPrepend(done, r);
          return;
        }
        if |list| == 0 {
          assert rest == ClearRun([], Cleared);
          assert done + [] == done;
          break;
        }
        assert Attempted(r) == r.deleted by {
          assert r.deleted + [] == r.deleted;
        }
        assert effects == e0 + DeleteRequests(r.deleted) by {
          assert e0 + DeleteRequests(Attempted(r)) + [] == e0 + DeleteRequests(Attempted(r));
        }
        assert effects == s0.effects + DeleteRequests(done + r.deleted);
        assert rest == Prepend(r.deleted, HistoryRun(world.debugHistory, page + 1, conf.botId, world.deletePost));
        PrependAssoc(done, r.deleted, HistoryRun(world.debugHistory, page + 1, conf.botId, world.deletePost));
        done := done + r.deleted;
        page := page + 1;
      }
      ReplyToPost(DoneReply, post);
    }

    method HandleFollowers(post: Post, args: seq<string>, world: World)
      modifies this
      ensures St() == FollowersStep(old(St()), post, world)
    {
      if !IsTrusted(trusted, post.userId) {
        ReplyToPost(NotTrusted, post);
        return;
      }
      var friends: seq<string> := [];
      PrefixedByEmpty(FollowedFrom(world.friendPages, 0));
      var cursor := 0;
      var call := 0;  // `Friends.List` calls made so far; `cursor` says which page the next one asks for
      while true
        invariant St() == old(St())
        invariant FollowedFrom(world.friendPages, 0) == PrefixedBy(friends, FollowedFrom(world.friendPages, call))
        decreases |world.friendPages| - call
      {
        var res := FriendsAnswer(world.friendPages, call);
        if res.Failure? {
          ReplyToPost("error: " + res.error, post);
          return;
        }
        var users := res.value.screenNames;
        if |users| == 0 {
          assert friends + [] == friends;
          break;
        }
        ghost var before := friends;
        var j := 0;
        while j < |users|
          invariant 0 <= j <= |users|
          invariant friends == before + users[..j]
        {
          friends := friends + [users[j]];
          j := j + 1;
        }
        assert users[..j] == users;
        cursor := res.value.nextCursor;
        if cursor == 0 {
          break;
        }
        PrefixedByAssoc(before, users, FollowedFrom(world.friendPages, call + 1));
        call := call + 1;
      }
      ReplyToPost("I'm following: " + GoStringSlice(friends), post);
    }

    method PostTweet(t: Tweet)
      modifies this
      ensures St() == PostTweetStep(old(St()), conf, t)
    {
      var atts := BuildAttachments(t);
      if atts.None? {
        RaisePanic(NilDereference);
        return;
      }
      effects := effects + [TweetPost(conf.channelId, atts.value)];
    }

    method CheckTimeline(world: World)
      requires !halted
      modifies this
      ensures St() == CheckTimelineStep(old(St()), conf, world)
    {
      var fetched := world.homeTimeline(conf.maxTweets, lastPost);
      if fetched.Failure? {
        Logf("checkTimeline error: " + fetched.error);
        return;
      }
      var tweets := fetched.value;
      for i := 0 to |tweets|
        invariant St() == old(St()).(lastPost := lastPost)
        invariant MaxId(old(lastPost), tweets) == MaxId(lastPost, tweets[i..])
      {
        assert tweets[i..][0] == tweets[i] && tweets[i..][1..] == tweets[i + 1..];
        if tweets[i].id > lastPost {
          lastPost := tweets[i].id;
        }
      }
      assert tweets[|tweets|..] == [];
      SaveData();
      ghost var s1 := St();
      for i := 0 to |tweets|
        invariant !halted
        invariant PostTweets(s1, conf, tweets) == PostTweets(St(), conf, tweets[i..])
      {
        assert tweets[i..][0] == tweets[i] && tweets[i..][1..] == tweets[i + 1..];
        PostTweet(tweets[i]);
        if halted {
          // the panic ends the batch
          return;
        }
      }
      assert tweets[|tweets|..] == [];
    }

    method HandleCheck(post: Post, args: seq<string>, world: World)
      requires !halted
      modifies this
      ensures St() == CheckStep(old(St()), conf, post, world)
    {
      if !IsTrusted(trusted, post.userId) {
        ReplyToPost(NotTrusted, post);
        return;
      }
      CheckTimeline(world);
      if halted {
        return;
      }
      ReplyToPost(DoneReply, post);
    }

    /** `handleUnknownCommand`; `order` is the order in which Go enumerates the handler map. */
    method HandleUnknownCommand(post: Post, args: seq<string>, order: seq<string>)
      requires IsRegistryOrder(order)
      modifies this
      ensures St() == UnknownStep(old(St()), post, order)
    {
      RegistryOrderNames(order);
      var cmds := CommandList(order);
      ReplyToPost(HelpMessage(cmds), post);
    }

    method HandleWebSocketEvent(ev: WsEvent, world: World, order: seq<string>)
      requires !halted && IsRegistryOrder(order)
      modifies this
      ensures St() == EventStep(old(St()), conf, ev, world, order)
    {
      if ev.event != PostedEvent {
        return;
      }
      var isDM := ev.channelType == "D";
      if ev.post.None? {
        return;
      }
      var post := ev.post.value;
      if post.userId == conf.botId {
        return;
      }
      var msg0 := TrimSpace(post.message);
      var msg := TrimSpace(TrimPrefix(msg0, Mention(conf.botName)));
      assert msg == Stripped(post.message, conf.botName);
      ghost var parsed := ParseCommand(post.message, conf.botName, isDM);
      if !isDM && msg == msg0 {
        assert parsed.None?;
        return;
      }
      var (cmd, args) := SplitOnce(msg, ' ');
      assert parsed == Some((cmd, args));
      assert EventStep(St(), conf, ev, world, order) == CommandOrHelp(St(), conf, post, cmd, args, world, order);
      RunCommand(post, cmd, args, world, order);
    }

    /** The handler lookup that ends `handleWebSocketEvent`. */
    method RunCommand(post: Post, cmd: string, args: seq<string>, world: World, order: seq<string>)
      requires !halted && IsRegistryOrder(order)
      modifies this
      ensures St() == CommandOrHelp(old(St()), conf, post, cmd, args, world, order)
    {
      var handler := Lookup(cmd);
      if handler.None? {
        HandleUnknownCommand(post, args, order);
        return;
      }
      Dispatch(handler.value, post, args, world);
    }

    /** The call `handler(post, bits[1:])` for a handler found in the map. */
    method Dispatch(c: Command, post: Post, args: seq<string>, world: World)
      requires !halted
      modifies this
      ensures St() == CommandStep(old(St()), conf, c, post, args, world)
    {
      match c
      case Ping => HandlePing(post, args);
      case Follow => HandleFollow(post, args, world);
      case Unfollow => HandleUnfollow(post, args, world);
      case Followers => HandleFollowers(post, args, world);
      case Trust => HandleTrust(post, args, world);
      case Distrust => HandleDistrust(post, args, world);
      case Check => HandleCheck(post, args, world);
      case Clear => HandleClear(post, args, world);
    }
  }

  /** The names collected before a call, followed by those the rest of the loop collects. */
  function PrefixedBy(prefix: seq<string>, r: Result<seq<string>, string>): Result<seq<string>, string> {
    match r
    case Failure(err) => Failure(err)
    case Success(rest) => Success(prefix + rest)
  }

  lemma PrefixedByAssoc(a: seq<string>, b: seq<string>, r: Result<seq<string>, string>)
    ensures PrefixedBy(a, PrefixedBy(b, r)) == PrefixedBy(a + b, r)
  {
    if r.Success? {
      assert a + (b + r.value) == (a + b) + r.value;
    }
  }

  lemma PrefixedByEmpty(r: Result<seq<string>, string>)
    ensures PrefixedBy([], r) == r
  {
    if r.Success? {
      assert [] + r.value == r.value;
    }
  }
}
