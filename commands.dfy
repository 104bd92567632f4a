/**
  How the bot reads a chat message as a command: trimming, the mention prefix,
  the split into command name and argument, and the fixed command registry
  with its help reply for unknown names.
*/
module Commands {
  import opened Wrappers
  import opened GoStrings

  /** The handlers registered in `NewBot`. */
  datatype Command = Ping | Follow | Unfollow | Followers | Trust | Distrust | Check | Clear

  /** The registry key of each handler. */
  function Name(c: Command): string {
    match c
    case Ping => "ping"
    case Follow => "follow"
    case Unfollow => "unfollow"
    case Followers => "followers"
    case Trust => "trust"
    case Distrust => "distrust"
    case Check => "check"
    case Clear => "clear"
  }

  /** The registry keys, in the order `NewBot` lists them. */
  const Registry: seq<string> := ["ping", "follow", "unfollow", "followers", "trust", "distrust", "check", "clear"]

  /** Looking a command name up in the registry: exactly the registered names are found. */
  function Lookup(name: string): (r: Option<Command>)
    ensures r.Some? <==> name in Registry
    ensures r.Some? ==> Name(r.value) == name
  {
    match name
    case "ping" => Some(Ping)
    case "follow" => Some(Follow)
    case "unfollow" => Some(Unfollow)
    case "followers" => Some(Followers)
    case "trust" => Some(Trust)
    case "distrust" => Some(Distrust)
    case "check" => Some(Check)
    case "clear" => Some(Clear)
    case _ => None
  }

  /** Every handler is found under its own name. */
  lemma LookupName(c: Command)
    ensures Lookup(Name(c)) == Some(c)
    ensures Name(c) in Registry
  {
  }

  /** The mention that addresses the bot in a channel. */
  function Mention(botName: string): string {
    "@" + botName
  }

  /** The message after trimming, removing the mention once, and trimming again. */
  function Stripped(message: string, botName: string): string {
    TrimSpace(TrimPrefix(TrimSpace(message), Mention(botName)))
  }

  /**
    The parsing step of `handleWebSocketEvent`: `None` when the message is ignored,
    otherwise the command name and the argument list.
  */
  function ParseCommand(message: string, botName: string, isDM: bool): Option<(string, seq<string>)> {
    var msg := Stripped(message, botName);
    if !isDM && msg == TrimSpace(message) then None
    else Some(SplitOnce(msg, ' '))
  }

  /**
    A channel message is ignored exactly when its trimmed text does not start
    with the mention; a direct message is never ignored. The match is a plain
    prefix test with no word boundary.
  */
  lemma {:induction false} IgnoredIffNoMention(message: string, botName: string, isDM: bool)
    ensures ParseCommand(message, botName, isDM).None? <==> !isDM && !HasPrefix(TrimSpace(message), Mention(botName))
  {
    var msg0 := TrimSpace(message);
    var cut := TrimPrefix(msg0, Mention(botName));
    var msg := TrimSpace(cut);
    assert Stripped(message, botName) == msg;
    if HasPrefix(msg0, Mention(botName)) {
      assert Mention(botName) + cut == msg0;
      assert |msg| <= |cut| < |msg0|;
      assert msg != msg0;
    } else {
      assert cut == msg0;
      TrimSpaceFixpoint(msg0);
      assert msg == msg0;
    }
  }

  /**
    When a message is read as a command, the command name is the stripped text up
    to its first space, and there is at most one argument: the rest, verbatim.
  */
  lemma ParsedShape(message: string, botName: string, isDM: bool)
    requires ParseCommand(message, botName, isDM).Some?
    ensures var (cmd, args) := ParseCommand(message, botName, isDM).value;
      && |args| <= 1
      && ' ' !in cmd
      && Stripped(message, botName) == (if args == [] then cmd else cmd + " " + args[0])
  {
  }

  /**
    No word boundary: whatever follows the mention is the command text, so
    `@botty ping` addressed to `bot` is read as the command `ty` with argument `ping`.
  */
  lemma NoWordBoundary(botName: string, tail: string)
    requires NoSpaceEnds(Mention(botName) + tail)
    ensures ParseCommand(Mention(botName) + tail, botName, false) == Some(SplitOnce(TrimSpace(tail), ' '))
  {
    var m := Mention(botName) + tail;
    var msg0 := TrimSpace(m);
    assert msg0 == m by { TrimSpaceFixpoint(m); }
    var stripped := TrimPrefix(msg0, Mention(botName));
    assert stripped == tail by { assert HasPrefix(m, Mention(botName)); }
    var msg := TrimSpace(stripped);
    assert Stripped(m, botName) == msg;
    assert msg != msg0 by { assert |msg| < |m|; }
    assert ParseCommand(m, botName, false) == Some(SplitOnce(msg, ' '));
  }

  /** The order in which Go happened to enumerate the registry map: each name once. */
  predicate IsRegistryOrder(order: seq<string>) {
    multiset(order) == multiset(Registry)
  }

  /** Any enumeration of the registry holds exactly the registered names, none of them empty. */
  lemma RegistryOrderNames(order: seq<string>)
    requires IsRegistryOrder(order)
    ensures forall n :: n in order <==> n in Registry
    ensures forall i :: 0 <= i < |order| ==> order[i] != ""
  {
    forall n ensures n in order <==> n in Registry {
      assert n in order <==> n in multiset(order);
      assert n in Registry <==> n in multiset(Registry);
    }
    assert forall k :: 0 <= k < |Registry| ==> |Registry[k]| > 0;
    forall i | 0 <= i < |order| ensures order[i] != "" {
      assert order[i] in Registry;
    }
  }

  /**
    The loop of `handleUnknownCommand` that lists the command names: the names
    joined by ", ", in the enumeration order.
  */
  method CommandList(order: seq<string>) returns (cmds: string)
    requires forall i :: 0 <= i < |order| ==> order[i] != ""
    ensures cmds == Join(order, ", ")
  {
    cmds := "";
    for i := 0 to |order|
      invariant cmds == Join(order[..i], ", ")
    {
      assert order[..i + 1][..i] == order[..i];
      if cmds == "" {
        cmds := order[i];
      } else {
        cmds := cmds + ", " + order[i];
      }
    }
    assert order[..|order|] == order;
  }

  const Apology: string := "Sorry, I don't understand that command."

  /** The help reply for an unknown command. */
  function HelpMessage(cmds: string): string {
    Apology + "  Available commands: " + cmds
  }

  /** The help reply starts with the apology and names every registered command. */
  lemma HelpNamesEveryCommand(order: seq<string>)
    requires IsRegistryOrder(order)
    ensures HasPrefix(HelpMessage(Join(order, ", ")), Apology)
    ensures forall n :: n in Registry ==> Contains(HelpMessage(Join(order, ", ")), n)
  {
    RegistryOrderNames(order);
    var cmds := Join(order, ", ");
    forall n | n in Registry
      ensures Contains(HelpMessage(cmds), n)
    {
      var k :| 0 <= k < |order| && order[k] == n;
      JoinContainsEach(order, ", ", k);
      ContainsInRight(Apology + "  Available commands: ", cmds, n);
    }
  }
}
