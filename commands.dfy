/**
 * The command dispatcher: the registry of command descriptors, the user
 * allow-list, message tokenisation, the command-prefix test, and the walk
 * over the registry that decides which descriptor answers a Slack event and
 * where its reply is posted.
 */
module Commands {
  import opened Wrappers
  import opened Strings
  import opened Slack

  // ---------------------------------------------------------------------
  // Descriptors
  // ---------------------------------------------------------------------

  /** What a callback hands back: the reply options and an error, which the dispatcher only logs. */
  datatype CallbackResult = CallbackResult(options: seq<MsgOption>, error: Option<string>)

  /** A descriptor's callback, given the message and its arguments. */
  type Callback = (MessageEvent, seq<string>) -> CallbackResult

  /** The `MessageOfInterest` a descriptor carries: unset, the command-prefix test, or a supplied test. */
  datatype Interest = Unset | CommandPrefix | Supplied(test: seq<string> -> bool)

  /** `data.Attributes`: one command descriptor. */
  datatype Attributes = Attributes(
    commands: seq<string>,
    requireMention: bool,
    dontGlobQuotes: bool,
    allowNonSplatUsers: bool,
    mustBeInThread: bool,
    requiredArgs: int,
    maxArgs: int,
    helpMarkdown: string,
    respondInDM: bool,
    respondInChannel: bool,
    callback: Callback,
    messageOfInterest: Interest)

  /** The descriptor as `AddCommand` stores it: with the supplied test, or the command-prefix test. */
  function WithInterest(attribute: Attributes, handler: seq<seq<string> -> bool>): Attributes
  {
    attribute.(messageOfInterest := if |handler| > 0 then Supplied(handler[0]) else CommandPrefix)
  }

  /** The descriptors `Initialize` registers, in order, each given the command-prefix test. */
  function Registered(builtins: seq<Attributes>): (r: seq<Attributes>)
    ensures |r| == |builtins|
  {
    seq(|builtins|, i requires 0 <= i < |builtins| => WithInterest(builtins[i], []))
  }

  /** The allow-list read from `SLACK_ALLOWED_USERS`: its comma-separated pieces, or nothing when unset. */
  function AllowList(allowed: string): set<string>
  {
    if |allowed| == 0 then {} else set u | u in Split(allowed, ',')
  }

  /** `isAllowedUser`: an error exactly when the list is non-empty and the sender is not on it. */
  function IsAllowedUser(allowedUsers: set<string>, ev: MessageEvent): (r: Option<string>)
    ensures r.Some? <==> |allowedUsers| > 0 && ev.user !in allowedUsers
    ensures r.Some? ==> r.value == "user not allowed"
  {
    if ev.user !in allowedUsers && |allowedUsers| > 0 then Some("user not allowed") else None
  }

  /** With no allow-list configured every user passes; with one, exactly its members pass. */
  lemma AllowListEnforcement(allowed: string, ev: MessageEvent)
    ensures |allowed| == 0 ==> IsAllowedUser(AllowList(allowed), ev).None?
    ensures |allowed| > 0 ==> (IsAllowedUser(AllowList(allowed), ev).None? <==> ev.user in Split(allowed, ','))
  {
    if |allowed| > 0 {
      var pieces := Split(allowed, ',');
      assert pieces[0] in AllowList(allowed);
    }
  }

  /** A two-user setting allows exactly those two users. */
  lemma AllowListExample()
    ensures AllowList("U01,U02") == {"U01", "U02"}
  {
    var parts := ["U01", "U02"];
    assert Join(parts, [',']) == "U01,U02";
    SplitJoin(parts, ',');
  }

  /** The registry (`attributes`) and the allow-list (`allowedUsers`). */
  class Registry {
    var attributes: seq<Attributes>
    var allowedUsers: set<string>

    constructor ()
      ensures attributes == [] && allowedUsers == {}
    {
      attributes := [];
      allowedUsers := {};
    }

    /** `AddCommand`: appends one descriptor, with its `MessageOfInterest` set. */
    method AddCommand(attribute: Attributes, handler: seq<seq<string> -> bool>)
      modifies this`attributes
      ensures attributes == old(attributes) + [WithInterest(attribute, handler)]
    {
      var stored := attribute;
      if |handler| > 0 {
        stored := stored.(messageOfInterest := Supplied(handler[0]));
      } else {
        stored := stored.(messageOfInterest := CommandPrefix);
      }
      attributes := attributes + [stored];
    }

    /** `getAttributes`: a copy of the registry. */
    method GetAttributes() returns (r: seq<Attributes>)
      ensures |r| == |attributes| && forall i :: 0 <= i < |r| ==> r[i] == attributes[i]
    {
      r := [];
      var i := 0;
      while i < |attributes|
        invariant 0 <= i <= |attributes|
        invariant r == attributes[..i]
      {
        r := r + [attributes[i]];
        i := i + 1;
      }
    }

    /**
     * `Initialize`: registers the built-in descriptors in order, then adds
     * the comma-separated users of `SLACK_ALLOWED_USERS` when it is set.
     */
    method Initialize(builtins: seq<Attributes>, allowed: string)
      modifies this
      ensures attributes == old(attributes) + Registered(builtins)
      ensures allowedUsers == old(allowedUsers) + AllowList(allowed)
    {
      var i := 0;
      while i < |builtins|
        invariant 0 <= i <= |builtins|
        invariant attributes == old(attributes) + Registered(builtins[..i])
        invariant allowedUsers == old(allowedUsers)
      {
        AddCommand(builtins[i], []);
        assert Registered(builtins[..i + 1]) == Registered(builtins[..i]) + [WithInterest(builtins[i], [])];
        i := i + 1;
      }
      assert builtins[..i] == builtins;
      if |allowed| > 0 {
        var ids := Split(allowed, ',');
        var j := 0;
        while j < |ids|
          invariant 0 <= j <= |ids|
          invariant allowedUsers == old(allowedUsers) + set u | u in ids[..j]
          invariant attributes == old(attributes) + Registered(builtins)
        {
          allowedUsers := allowedUsers + {ids[j]};
          assert ids[..j + 1] == ids[..j] + [ids[j]];
          j := j + 1;
        }
        assert ids[..j] == ids;
      }
    }
  }

  // ---------------------------------------------------------------------
  // Tokenisation
  // ---------------------------------------------------------------------

  /** A character `\s` matches in Go's regular expressions: space, tab, newline, form feed, carriage return. */
  predicate IsSpace(c: char)
  {
    c == ' ' || c == '\t' || c == '\n' || c == '\r' || c == '\U{000C}'
  }

  /** Length of the longest prefix of `s` without whitespace. */
  function NonSpaceRun(s: string): (n: nat)
    ensures n <= |s|
    ensures forall i :: 0 <= i < n ==> !IsSpace(s[i])
    ensures n == |s| || IsSpace(s[n])
  {
    if s == [] || IsSpace(s[0]) then 0 else 1 + NonSpaceRun(s[1..])
  }

  /**
   * One match of `"([^"]*?)"|(\S+)` as `FindAllStringSubmatch` reports it:
   * the first group (the text between quotes) and the second (a bare run);
   * a group that did not take part is reported as "".
   */
  datatype Submatch = Submatch(quoted: string, bare: string)

  /**
   * The successive leftmost-first matches of `"([^"]*?)"|(\S+)` in `s`.
   * At a quote with a closing quote further on, the first alternative
   * takes the text up to that closing quote; at any other non-space
   * character the second takes the maximal non-space run; whitespace
   * starts no match.
   */
  function FindMatches(s: string): (r: seq<Submatch>)
    ensures forall i :: 0 <= i < |r| ==> '"' !in r[i].quoted
    ensures forall i :: 0 <= i < |r| ==> r[i].quoted == "" || r[i].bare == ""
    decreases |s|
  {
    if s == [] then []
    else if IsSpace(s[0]) then FindMatches(s[1..])
    else if s[0] == '"' && '"' in s[1..] then
      var k := IndexOf(s[1..], '"');
      [Submatch(s[1..][..k], "")] + FindMatches(s[k + 2..])
    else
      var n := NonSpaceRun(s);
      [Submatch("", s[..n])] + FindMatches(s[n..])
  }

  /** The token `tokenize` takes from one match. */
  function TokenOf(m: Submatch): string
  {
    if m.quoted != "" then Trim(m.quoted, '"') else m.bare
  }

  /** The tokens of a list of matches, one per match. */
  function TokensOf(ms: seq<Submatch>): (r: seq<string>)
    ensures |r| == |ms|
  {
    seq(|ms|, i requires 0 <= i < |ms| => TokenOf(ms[i]))
  }

  /** The tokens of a text in quote-globbing mode. */
  function GlobTokens(s: string): (r: seq<string>)
    ensures |r| == |FindMatches(s)|
  {
    TokensOf(FindMatches(s))
  }

  /** The tokens of a text: quote-globbing, or a split on single spaces. */
  function Tokens(s: string, glob: bool): seq<string>
  {
    if glob then GlobTokens(s) else Split(s, ' ')
  }

  /** `tokenize`. */
  method Tokenize(msgText: string, glob: bool) returns (tokens: seq<string>)
    ensures tokens == Tokens(msgText, glob)
  {
    if glob {
      var matches := FindMatches(msgText);
      tokens := [];
      var i := 0;
      while i < |matches|
        invariant 0 <= i <= |matches|
        invariant |tokens| == i
        invariant forall j :: 0 <= j < i ==> tokens[j] == TokenOf(matches[j])
      {
        var m := matches[i];
        if m.quoted != "" {
          tokens := tokens + [Trim(m.quoted, '"')];
        } else {
          tokens := tokens + [m.bare];
        }
        i := i + 1;
      }
    } else {
      tokens := Split(msgText, ' ');
    }
  }

  /** An argument as a user types it: a bare word, or a phrase in double quotes. */
  datatype Arg = Bare(word: string) | Quoted(phrase: string)

  /** A bare word is non-empty and has no whitespace and no quotes; a phrase has no quotes. */
  predicate WellFormed(a: Arg)
  {
    match a
    case Bare(w) => |w| > 0 && '"' !in w && forall i :: 0 <= i < |w| ==> !IsSpace(w[i])
    case Quoted(p) => '"' !in p
  }

  function RenderArg(a: Arg): string
  {
    match a
    case Bare(w) => w
    case Quoted(p) => "\"" + p + "\""
  }

  /** What the user means by an argument: the word, or the phrase without its quotes. */
  function ArgValue(a: Arg): string
  {
    match a
    case Bare(w) => w
    case Quoted(p) => p
  }

  /** Arguments typed one after another, separated by single spaces. */
  function Render(args: seq<Arg>): string
  {
    if |args| == 0 then ""
    else if |args| == 1 then RenderArg(args[0])
    else RenderArg(args[0]) + " " + Render(args[1..])
  }

  lemma {:induction false} NonSpaceRunOf(w: string, t: string)
    requires forall i :: 0 <= i < |w| ==> !IsSpace(w[i])
    requires t == [] || IsSpace(t[0])
    ensures NonSpaceRun(w + t) == |w|
  {
    if w != [] {
      assert (w + t)[1..] == w[1..] + t;
      NonSpaceRunOf(w[1..], t);
    } else {
      assert w + t == t;
    }
  }

  lemma FindMatchesSpace(t: string)
    ensures FindMatches(" " + t) == FindMatches(t)
  {
    assert (" " + t)[1..] == t;
  }

  /** The match an argument produces. */
  function ArgMatch(a: Arg): Submatch
  {
    if a.Bare? then Submatch("", a.word) else Submatch(a.phrase, "")
  }

  function MatchesOf(args: seq<Arg>): (r: seq<Submatch>)
    ensures |r| == |args| && forall i :: 0 <= i < |args| ==> r[i] == ArgMatch(args[i])
  {
    if |args| == 0 then [] else [ArgMatch(args[0])] + MatchesOf(args[1..])
  }

  lemma FindMatchesArg(a: Arg, t: string)
    requires WellFormed(a)
    requires t == [] || t[0] == ' '
    ensures FindMatches(RenderArg(a) + t) == [ArgMatch(a)] + FindMatches(t)
  {
    match a
    case Bare(w) => FindMatchesBare(w, t);
    case Quoted(p) => FindMatchesQuoted(p, t);
  }

  /** A bare word up to a space or the end is one match of the second group. */
  lemma FindMatchesBare(w: string, t: string)
    requires WellFormed(Bare(w))
    requires t == [] || t[0] == ' '
    ensures FindMatches(w + t) == [Submatch("", w)] + FindMatches(t)
  {
    var s := w + t;
    NonSpaceRunOf(w, t);
    assert s[..|w|] == w && s[|w|..] == t;
    assert s[0] == w[0];
  }

  /** A quoted phrase is one match of the first group. */
  lemma FindMatchesQuoted(p: string, t: string)
    requires '"' !in p
    ensures FindMatches("\"" + p + "\"" + t) == [Submatch(p, "")] + FindMatches(t)
  {
    var s := "\"" + p + "\"" + t;
    var rest := s[1..];
    assert rest == p + "\"" + t;
    assert rest[|p|] == '"' && rest[..|p|] == p;
    assert IndexOf(rest, '"') == |p|;
    assert s[|p| + 2..] == t;
  }

  /** Each typed argument is one match of the pattern. */
  lemma {:induction false} RenderMatches(args: seq<Arg>)
    requires forall i :: 0 <= i < |args| ==> WellFormed(args[i])
    ensures FindMatches(Render(args)) == MatchesOf(args)
  {
    if |args| == 1 {
      FindMatchesArg(args[0], []);
      assert RenderArg(args[0]) + [] == RenderArg(args[0]);
    } else if |args| > 1 {
      var tail := Render(args[1..]);
      FindMatchesArg(args[0], " " + tail);
      FindMatchesSpace(tail);
      RenderMatches(args[1..]);
      assert Render(args) == RenderArg(args[0]) + (" " + tail);
    }
  }

  lemma TokenOfArg(a: Arg)
    requires WellFormed(a)
    ensures TokenOf(ArgMatch(a)) == ArgValue(a)
  {
    if a.Quoted? {
      TrimAbsent(a.phrase, '"');
    }
  }

  /**
   * Quote globbing gives back what was typed: a quoted phrase is one token
   * without its quotes, and a bare word is one token.
   */
  lemma GlobRoundTrip(args: seq<Arg>)
    requires forall i :: 0 <= i < |args| ==> WellFormed(args[i])
    ensures GlobTokens(Render(args)) == seq(|args|, i requires 0 <= i < |args| => ArgValue(args[i]))
  {
    RenderMatches(args);
    forall i | 0 <= i < |args|
      ensures GlobTokens(Render(args))[i] == ArgValue(args[i])
    {
      TokenOfArg(args[i]);
    }
  }

  lemma TokensOfCons(m: Submatch, mt: seq<Submatch>)
    ensures TokensOf([m] + mt) == [TokenOf(m)] + TokensOf(mt)
  {
    var ms := [m] + mt;
    forall i | 1 <= i < |ms|
      ensures TokensOf(ms)[i] == TokensOf(mt)[i - 1]
    {
      assert ms[i] == mt[i - 1];
    }
  }

  /** A text whose matches are one match followed by another text's has that match's token first. */
  lemma GlobTokensCons(s: string, t: string, m: Submatch)
    requires FindMatches(s) == [m] + FindMatches(t)
    ensures GlobTokens(s) == [TokenOf(m)] + GlobTokens(t)
  {
    TokensOfCons(m, FindMatches(t));
  }

  /** A typed argument followed by a space contributes its value as the first token. */
  lemma GlobCons(a: Arg, rest: string)
    requires WellFormed(a)
    ensures GlobTokens(RenderArg(a) + " " + rest) == [ArgValue(a)] + GlobTokens(rest)
  {
    var s := RenderArg(a) + " " + rest;
    assert s == RenderArg(a) + (" " + rest);
    FindMatchesArg(a, " " + rest);
    FindMatchesSpace(rest);
    GlobTokensCons(s, rest, ArgMatch(a));
    TokenOfArg(a);
  }

  /** A typed argument on its own is the only token. */
  lemma GlobSingle(a: Arg)
    requires WellFormed(a)
    ensures GlobTokens(RenderArg(a)) == [ArgValue(a)]
  {
    FindMatchesArg(a, []);
    assert RenderArg(a) + [] == RenderArg(a);
    TokenOfArg(a);
  }

  /** Plain words separated by single spaces tokenise to themselves. */
  lemma {:induction false} GlobWords(words: seq<string>)
    requires |words| > 0 && forall i :: 0 <= i < |words| ==> WellFormed(Bare(words[i]))
    ensures GlobTokens(Join(words, " ")) == words
  {
    if |words| == 1 {
      GlobSingle(Bare(words[0]));
    } else {
      GlobWords(words[1..]);
      GlobCons(Bare(words[0]), Join(words[1..], " "));
      assert words == [words[0]] + words[1..];
    }
  }

  // ---------------------------------------------------------------------
  // The command-prefix test
  // ---------------------------------------------------------------------

  /** What `checkForCommand` does as written: a verdict, or an index past the end of `args`. */
  datatype Check = Holds(matched: bool) | IndexOutOfRange(index: nat)

  /**
   * `checkForCommand` as written: it compares `args[i]` with each command
   * word in turn and stops at the first difference, so `args` shorter than
   * the command words and agreeing with them is indexed past its end.
   */
  function CommandCheck(args: seq<string>, commands: seq<string>): Check
  {
    if |args| < |commands| && args == commands[..|args|] then IndexOutOfRange(|args|)
    else Holds(|commands| <= |args| && args[..|commands|] == commands)
  }

  /** `checkForCommand`, as written. */
  method CheckForCommand(args: seq<string>, attribute: Attributes) returns (r: Check)
    ensures r == CommandCheck(args, attribute.commands)
  {
    var commands := attribute.commands;
    var matched := true;
    var index := 0;
    while index < |commands|
      invariant 0 <= index <= |commands|
      invariant index <= |args| && args[..index] == commands[..index]
    {
      if index >= |args| {
        assert args == commands[..|args|];
        return IndexOutOfRange(index);
      }
      if commands[index] != args[index] {
        matched := false;
        assert !(|commands| <= |args| && args[..|commands|] == commands) by {
          if |commands| <= |args| {
            assert args[..|commands|][index] != commands[index];
          }
        }
        assert !(|args| < |commands| && args == commands[..|args|]) by {
          if |args| < |commands| {
            assert commands[..|args|][index] != args[index];
          }
        }
        break;
      }
      assert args[..index + 1] == args[..index] + [args[index]];
      assert commands[..index + 1] == commands[..index] + [commands[index]];
      index := index + 1;
    }
    if matched {
      assert commands[..|commands|] == commands;
    }
    return Holds(matched);
  }

  /** The message "@bot jira" gives the one argument "jira", and the jira/create check indexes past it. */
  lemma CheckForCommandPanicsOnPrefix()
    ensures CommandCheck(["jira"], ["jira", "create"]) == IndexOutOfRange(1)
    ensures forall args: seq<string>, commands: seq<string> ::
              CommandCheck(args, commands).IndexOutOfRange? <==> |args| < |commands| && args == commands[..|args|]
  {
    assert ["jira", "create"][..1] == ["jira"];
  }

  /** The intended test: the arguments start with the command words. */
  predicate HasCommandPrefix(args: seq<string>, commands: seq<string>)
  {
    |commands| <= |args| && args[..|commands|] == commands
  }

  /** `checkForCommand` with the bounds check added: too few arguments is no match. */
  method CheckForCommandBounded(args: seq<string>, attribute: Attributes) returns (matched: bool)
    ensures matched == HasCommandPrefix(args, attribute.commands)
    ensures matched <==> |attribute.commands| <= |args| &&
                         forall i :: 0 <= i < |attribute.commands| ==> args[i] == attribute.commands[i]
    ensures CommandCheck(args, attribute.commands).Holds? ==> CommandCheck(args, attribute.commands).matched == matched
  {
    var commands := attribute.commands;
    matched := true;
    var index := 0;
    while index < |commands|
      invariant 0 <= index <= |commands| && index <= |args|
      invariant matched
      invariant forall i :: 0 <= i < index ==> args[i] == commands[i]
    {
      if index >= |args| || commands[index] != args[index] {
        matched := false;
        break;
      }
      index := index + 1;
    }
    if matched {
      assert args[..|commands|] == commands;
    } else if |commands| <= |args| {
      assert args[..|commands|][index] != commands[index];
    }
  }

  // ---------------------------------------------------------------------
  // Dispatch
  // ---------------------------------------------------------------------

  /**
   * The collaborators of `Handler`: the mention test, the thread-URL
   * builder, and Slack's `OpenConversation` (a user to a DM channel).
   */
  datatype Platform = Platform(
    containsBotMention: string -> bool,
    threadUrl: MessageEvent -> string,
    openConversation: string -> Result<string>)

  /** What one descriptor does with a message. */
  datatype Step =
    | Skip                                       // not this descriptor; try the next
    | Deny(error: string)                        // permission failure: handling ends with an error
    | Crash                                      // a panic: `args[1:]` on no tokens, or `checkForCommand` past `args`
    | Answer(options: seq<MsgOption>, ran: bool) // a reply (maybe empty); `ran`: the callback was invoked

  /** A message to post: the channel and its options. */
  datatype Post = Post(channel: string, options: seq<MsgOption>)

  /** How handling an event ends. */
  datatype Outcome = NoReply | Posted(post: Post) | Failed(error: string) | Panicked

  /** The outcome, and the registry positions whose callbacks were invoked, in order. */
  datatype Dispatch = Dispatch(outcome: Outcome, invoked: seq<nat>)

  /** The fixed parts of the replies about the argument count. */
  const RequiresText: string := "command requires "
  const ArgumentsText: string := " arguments.\n"
  const QuoteAdviceText: string := " arguments. if an argument is greater than one word, be sure to wrap that argument in quotes.\n"

  /** The reply to too few arguments: the required count and the help text. */
  function TooFewArguments(requiredArgs: int, helpMarkdown: string): string
  {
    RequiresText + IntToString(requiredArgs) + ArgumentsText + helpMarkdown + "\n"
  }

  /** The reply to too many arguments, with the advice to quote multi-word arguments. */
  function TooManyArguments(requiredArgs: int, helpMarkdown: string): string
  {
    RequiresText + IntToString(requiredArgs) + QuoteAdviceText + helpMarkdown + "\n"
  }

  /** The arguments a descriptor sees: the tokens, without the first when the text mentions the bot. */
  function CommandArgs(attribute: Attributes, text: string, platform: Platform): Option<seq<string>>
  {
    var tokens := Tokens(text, !attribute.dontGlobQuotes);
    if !platform.containsBotMention(text) then Some(tokens)
    else if |tokens| == 0 then None
    else Some(tokens[1..])
  }

  /** One iteration of `Handler`'s loop over the registry. */
  function Consider(attribute: Attributes, msg: MessageEvent, isAppMention: bool,
                    allowedUsers: set<string>, platform: Platform): Step
  {
    if attribute.requireMention && (!platform.containsBotMention(msg.text) || !isAppMention) then Skip
    else
      match CommandArgs(attribute, msg.text, platform)
      case None => Crash
      case Some(args) => Judge(attribute, msg, allowedUsers, platform, args)
  }

  /**
   * The checks on a message whose arguments are known, with the prefix test
   * as written: arguments that are a proper prefix of the command words panic.
   */
  function Judge(attribute: Attributes, msg: MessageEvent, allowedUsers: set<string>, platform: Platform,
                 args: seq<string>): Step
  {
    match CommandCheck(args, attribute.commands)
    case IndexOutOfRange(_) => Crash
    case Holds(matched) => if matched then CommandFound(attribute, msg, allowedUsers, platform, args) else Skip
  }

  /** The same checks with the bounded prefix test: too few arguments is no match. */
  function JudgeBounded(attribute: Attributes, msg: MessageEvent, allowedUsers: set<string>, platform: Platform,
                        args: seq<string>): Step
  {
    if HasCommandPrefix(args, attribute.commands) then CommandFound(attribute, msg, allowedUsers, platform, args)
    else Skip
  }

  /**
   * The loop body panics exactly when the arguments are a proper prefix of
   * the command words; everywhere else it agrees with the bounded test,
   * which skips that descriptor instead.
   */
  lemma JudgeCrashesOnPrefix(attribute: Attributes, msg: MessageEvent, allowedUsers: set<string>, platform: Platform,
                             args: seq<string>)
    ensures Judge(attribute, msg, allowedUsers, platform, args) == Crash <==>
            |args| < |attribute.commands| && args == attribute.commands[..|args|]
    ensures |args| < |attribute.commands| && args == attribute.commands[..|args|] ==>
            JudgeBounded(attribute, msg, allowedUsers, platform, args) == Skip
    ensures !(|args| < |attribute.commands| && args == attribute.commands[..|args|]) ==>
            Judge(attribute, msg, allowedUsers, platform, args) == JudgeBounded(attribute, msg, allowedUsers, platform, args)
  {
    var commands := attribute.commands;
    if |args| < |commands| && args == commands[..|args|] {
      assert !HasCommandPrefix(args, commands);
    } else {
      assert CommandCheck(args, commands) == Holds(HasCommandPrefix(args, commands));
      assert CommandFound(attribute, msg, allowedUsers, platform, args) != Crash;
    }
  }

  /** The checks once the command words are found: permission, thread, argument count. */
  function CommandFound(attribute: Attributes, msg: MessageEvent, allowedUsers: set<string>, platform: Platform,
                        args: seq<string>): Step
  {
    if !attribute.allowNonSplatUsers && IsAllowedUser(allowedUsers, msg).Some? then
      Deny("user not allowed: " + IsAllowedUser(allowedUsers, msg).value)
    else if attribute.mustBeInThread && |platform.threadUrl(msg)| == 0 then Skip
    else ArgumentStep(attribute, msg, args)
  }

  /** The argument-count checks, then the callback. */
  function ArgumentStep(attribute: Attributes, msg: MessageEvent, args: seq<string>): Step
  {
    if |args| < attribute.requiredArgs then
      Answer([Text(TooFewArguments(attribute.requiredArgs, attribute.helpMarkdown), true)], false)
    else if attribute.requiredArgs > 0 && |args| > attribute.requiredArgs then
      Answer([Text(TooManyArguments(attribute.requiredArgs, attribute.helpMarkdown), true)], false)
    else Answer(attribute.callback(msg, args).options, true)
  }

  /**
   * Where a reply goes: a DM channel ("" when it cannot be opened), else
   * the channel anchored to the message, else the message's thread, else
   * the channel itself.
   */
  function Route(attribute: Attributes, msg: MessageEvent, options: seq<MsgOption>, platform: Platform): Post
  {
    if attribute.respondInDM then
      Post(match platform.openConversation(msg.user) case Ok(c) => c case Err(_) => "", options)
    else if !attribute.respondInChannel then Post(msg.channel, options + [ThreadTimestamp(msg.timeStamp)])
    else if |platform.threadUrl(msg)| > 0 then Post(msg.channel, options + [ThreadTimestamp(msg.threadTimeStamp)])
    else Post(msg.channel, options)
  }

  /** Every descriptor's step for one message, in registry order. */
  function Steps(attrs: seq<Attributes>, msg: MessageEvent, isAppMention: bool,
                 allowedUsers: set<string>, platform: Platform): (r: seq<Step>)
    ensures |r| == |attrs|
  {
    seq(|attrs|, j requires 0 <= j < |attrs| => Consider(attrs[j], msg, isAppMention, allowedUsers, platform))
  }

  /** The walk over the registry from position `i` on, given each position's step, after `invoked` callbacks ran. */
  function Walk(attrs: seq<Attributes>, steps: seq<Step>, i: nat, msg: MessageEvent, platform: Platform,
                invoked: seq<nat>): Dispatch
    requires |steps| == |attrs| && i <= |attrs|
    decreases |attrs| - i
  {
    if i == |attrs| then Dispatch(NoReply, invoked)
    else
      match steps[i]
      case Skip => Walk(attrs, steps, i + 1, msg, platform, invoked)
      case Deny(e) => Dispatch(Failed(e), invoked)
      case Crash => Dispatch(Panicked, invoked)
      case Answer(options, ran) =>
        var invoked' := if ran then invoked + [i] else invoked;
        if |options| > 0 then Dispatch(Posted(Route(attrs[i], msg, options, platform)), invoked')
        else Walk(attrs, steps, i + 1, msg, platform, invoked')
  }

  /** `Handler` on one Events API event. */
  function Handle(attrs: seq<Attributes>, allowedUsers: set<string>, evt: EventsAPIEvent, platform: Platform): Dispatch
  {
    if evt.eventType != "message" && evt.eventType != "event_callback" then Dispatch(NoReply, [])
    else
      match evt.inner
      case OtherEvent(t) => Dispatch(Failed("received an unknown event type: " + t), [])
      case AppMention(c, u, text, ts, tts) =>
        HandleMessage(attrs, allowedUsers, MessageEvent(c, u, text, ts, tts, ""), true, platform)
      case Message(m) => HandleMessage(attrs, allowedUsers, m, false, platform)
  }

  function HandleMessage(attrs: seq<Attributes>, allowedUsers: set<string>, msg: MessageEvent,
                         isAppMention: bool, platform: Platform): Dispatch
  {
    if |msg.botID| > 0 then Dispatch(NoReply, [])
    else Walk(attrs, Steps(attrs, msg, isAppMention, allowedUsers, platform), 0, msg, platform, [])
  }

  /** `getDMChannelID`. */
  method GetDMChannelID(platform: Platform, msg: MessageEvent) returns (r: Result<string>)
    ensures r.Ok? <==> platform.openConversation(msg.user).Ok?
    ensures r.Ok? ==> r.value == platform.openConversation(msg.user).value
  {
    var conv := platform.openConversation(msg.user);
    if conv.Err? {
      return Err("failed to open conversation: " + conv.error);
    }
    return Ok(conv.value);
  }

  /** The routing part of `Handler`: picks the channel and appends the thread anchor. */
  method RouteReply(attribute: Attributes, msg: MessageEvent, response: seq<MsgOption>, platform: Platform)
    returns (channel: string, options: seq<MsgOption>)
    ensures Post(channel, options) == Route(attribute, msg, response, platform)
  {
    channel := msg.channel;
    options := response;
    if attribute.respondInDM {
      var dm := GetDMChannelID(platform, msg);
      channel := if dm.Ok? then dm.value else "";
    } else if !attribute.respondInChannel {
      options := options + [ThreadTimestamp(msg.timeStamp)];
    } else if |platform.threadUrl(msg)| > 0 {
      options := options + [ThreadTimestamp(msg.threadTimeStamp)];
    }
  }

  /** The body of `Handler`'s loop for one descriptor. */
  method ConsiderDescriptor(attribute: Attributes, msg: MessageEvent, isAppMention: bool,
                            allowedUsers: set<string>, platform: Platform) returns (step: Step)
    ensures step == Consider(attribute, msg, isAppMention, allowedUsers, platform)
  {
    if attribute.requireMention && (!platform.containsBotMention(msg.text) || !isAppMention) {
      return Skip;
    }
    var args := Tokenize(msg.text, !attribute.dontGlobQuotes);
    if platform.containsBotMention(msg.text) {
      if |args| == 0 {
        assert CommandArgs(attribute, msg.text, platform) == None;
        return Crash;
      }
      args := args[1..];
    }
    assert CommandArgs(attribute, msg.text, platform) == Some(args);
    step := JudgeArguments(attribute, msg, allowedUsers, platform, args);
  }

  /** The rest of the loop body, once the arguments are known. */
  method JudgeArguments(attribute: Attributes, msg: MessageEvent, allowedUsers: set<string>, platform: Platform,
                        args: seq<string>) returns (step: Step)
    ensures step == Judge(attribute, msg, allowedUsers, platform, args)
  {
    var check := CheckForCommand(args, attribute);
    if check.IndexOutOfRange? {
      return Crash;
    }
    if !check.matched {
      return Skip;
    }
    if !attribute.allowNonSplatUsers {
      var err := IsAllowedUser(allowedUsers, msg);
      if err.Some? {
        return Deny("user not allowed: " + err.value);
      }
    }
    var inThread := |platform.threadUrl(msg)| > 0;
    if attribute.mustBeInThread && !inThread {
      return Skip;
    }
    step := CheckArguments(attribute, msg, args);
  }

  /** The argument-count checks of the loop body, then the callback. */
  method CheckArguments(attribute: Attributes, msg: MessageEvent, args: seq<string>) returns (step: Step)
    ensures step == ArgumentStep(attribute, msg, args)
  {
    if |args| < attribute.requiredArgs {
      return Answer([Text(TooFewArguments(attribute.requiredArgs, attribute.helpMarkdown), true)], false);
    } else if attribute.requiredArgs > 0 && |args| > attribute.requiredArgs {
      return Answer([Text(TooManyArguments(attribute.requiredArgs, attribute.helpMarkdown), true)], false);
    }
    var result := attribute.callback(msg, args);
    return Answer(result.options, true);
  }

  /** `Handler`: walks the registry for one event, posting the first non-empty reply. */
  method Handler(registry: Registry, evt: EventsAPIEvent, platform: Platform) returns (outcome: Outcome, ghost invoked: seq<nat>)
    ensures outcome == Handle(registry.attributes, registry.allowedUsers, evt, platform).outcome
    ensures invoked == Handle(registry.attributes, registry.allowedUsers, evt, platform).invoked
  {
    invoked := [];
    var isAppMention := false;
    if evt.eventType != "message" && evt.eventType != "event_callback" {
      return NoReply, invoked;
    }
    var msg: MessageEvent;
    match evt.inner {
      case AppMention(c, u, text, ts, tts) =>
        isAppMention := true;
        msg := MessageEvent(c, u, text, ts, tts, "");
      case Message(m) =>
        msg := m;
      case OtherEvent(t) =>
        return Failed("received an unknown event type: " + t), invoked;
    }
    if |msg.botID| > 0 {
      return NoReply, invoked;
    }
    var attrs := registry.GetAttributes();
    assert attrs == registry.attributes;
    outcome, invoked := WalkRegistry(attrs, registry.allowedUsers, msg, isAppMention, platform);
  }

  /** The loop of `Handler` over the registry, for a message not from a bot. */
  method WalkRegistry(attrs: seq<Attributes>, allowedUsers: set<string>, msg: MessageEvent, isAppMention: bool,
                      platform: Platform) returns (outcome: Outcome, ghost invoked: seq<nat>)
    ensures outcome == Walk(attrs, Steps(attrs, msg, isAppMention, allowedUsers, platform), 0, msg, platform, []).outcome
    ensures invoked == Walk(attrs, Steps(attrs, msg, isAppMention, allowedUsers, platform), 0, msg, platform, []).invoked
  {
    invoked := [];
    ghost var steps := Steps(attrs, msg, isAppMention, allowedUsers, platform);
    ghost var target := Walk(attrs, steps, 0, msg, platform, []);
    var i := 0;
    while i < |attrs|
      invariant 0 <= i <= |attrs|
      invariant Walk(attrs, steps, i, msg, platform, invoked) == target
    {
      var step := ConsiderDescriptor(attrs[i], msg, isAppMention, allowedUsers, platform);
      ghost var invoked' := if step.Answer? && step.ran then invoked + [i] else invoked;
      WalkStep(attrs, steps, i, msg, platform, invoked, step);
      invoked := invoked';
      if !Passes(step) {
        outcome := ConcludeWalk(step, attrs[i], msg, platform);
        return;
      }
      i := i + 1;
    }
    return NoReply, invoked;
  }

  // ---------------------------------------------------------------------
  // Properties of dispatch
  // ---------------------------------------------------------------------

  /** A step that lets the walk go on to the next descriptor. */
  predicate Passes(s: Step)
  {
    s.Skip? || (s.Answer? && |s.options| == 0)
  }

  /** How the walk ends at a step that does not pass. */
  function Conclude(s: Step, attribute: Attributes, msg: MessageEvent, platform: Platform): Outcome
    requires !Passes(s)
  {
    match s
    case Deny(e) => Failed(e)
    case Crash => Panicked
    case Answer(options, _) => Posted(Route(attribute, msg, options, platform))
  }

  /** How the walk ends at a step that does not pass, posting the reply where `Route` sends it. */
  method ConcludeWalk(s: Step, attribute: Attributes, msg: MessageEvent, platform: Platform) returns (outcome: Outcome)
    requires !Passes(s)
    ensures outcome == Conclude(s, attribute, msg, platform)
  {
    match s {
      case Deny(e) =>
        outcome := Failed(e);
      case Crash =>
        outcome := Panicked;
      case Answer(response, _) =>
        var channel, options := RouteReply(attribute, msg, response, platform);
        outcome := Posted(Post(channel, options));
    }
  }

  /** One step of the walk: a passing step moves on, any other ends the walk. */
  lemma WalkStep(attrs: seq<Attributes>, steps: seq<Step>, i: nat, msg: MessageEvent, platform: Platform,
                 invoked: seq<nat>, s: Step)
    requires |steps| == |attrs| && i < |attrs| && s == steps[i]
    ensures var invoked' := if s.Answer? && s.ran then invoked + [i] else invoked;
            Walk(attrs, steps, i, msg, platform, invoked) ==
              if Passes(s) then Walk(attrs, steps, i + 1, msg, platform, invoked')
              else Dispatch(Conclude(s, attrs[i], msg, platform), invoked')
  {
    match s
    case Skip =>
    case Deny(e) =>
    case Crash =>
    case Answer(options, ran) =>
  }

  /** Without a descriptor whose step ends the walk, there is no reply. */
  lemma {:induction false} NoDecidingDescriptor(attrs: seq<Attributes>, steps: seq<Step>, i: nat, msg: MessageEvent,
                                                platform: Platform, invoked: seq<nat>)
    requires |steps| == |attrs| && i <= |attrs|
    requires forall j :: i <= j < |attrs| ==> Passes(steps[j])
    ensures Walk(attrs, steps, i, msg, platform, invoked).outcome == NoReply
    decreases |attrs| - i
  {
    if i < |attrs| {
      var s := steps[i];
      assert Passes(s);
      NoDecidingDescriptor(attrs, steps, i + 1, msg, platform, if s.Answer? && s.ran then invoked + [i] else invoked);
    }
  }

  /**
   * The walk goes through the registry in order: the first descriptor
   * whose step does not pass decides the outcome.
   */
  lemma {:induction false} FirstDecidingDescriptor(attrs: seq<Attributes>, steps: seq<Step>, i: nat, j: nat,
                                                   msg: MessageEvent, platform: Platform, invoked: seq<nat>)
    requires |steps| == |attrs| && i <= j < |attrs|
    requires forall l :: i <= l < j ==> Passes(steps[l])
    requires !Passes(steps[j])
    ensures Walk(attrs, steps, i, msg, platform, invoked).outcome == Conclude(steps[j], attrs[j], msg, platform)
    decreases j - i
  {
    var s := steps[i];
    if i < j {
      assert Passes(s);
      FirstDecidingDescriptor(attrs, steps, i + 1, j, msg, platform, if s.Answer? && s.ran then invoked + [i] else invoked);
    }
  }

  /** Position `x` answered with its callback run, and every position from `i` up to it passed. */
  ghost predicate Reached(steps: seq<Step>, i: nat, x: nat)
  {
    i <= x < |steps| && steps[x].Answer? && steps[x].ran && forall l :: i <= l < x ==> Passes(steps[l])
  }

  lemma ReachedEarlier(steps: seq<Step>, i: nat, x: nat)
    requires i < |steps| && Passes(steps[i]) && Reached(steps, i + 1, x)
    ensures Reached(steps, i, x)
  {
    forall l | i <= l < x
      ensures Passes(steps[l])
    {
      if l > i {
        assert i + 1 <= l < x;
      }
    }
  }

  /**
   * Callbacks run in registry order, and only for descriptors the walk
   * reached: every descriptor before them passed.
   */
  lemma {:induction false} InvokedAreReached(attrs: seq<Attributes>, steps: seq<Step>, i: nat, msg: MessageEvent,
                                             platform: Platform, invoked: seq<nat>)
    requires |steps| == |attrs| && i <= |attrs|
    ensures var d := Walk(attrs, steps, i, msg, platform, invoked);
            |invoked| <= |d.invoked| && d.invoked[..|invoked|] == invoked &&
            forall k :: |invoked| <= k < |d.invoked| ==> Reached(steps, i, d.invoked[k])
    decreases |attrs| - i
  {
    if i < |attrs| {
      var s := steps[i];
      var invoked' := if s.Answer? && s.ran then invoked + [i] else invoked;
      var d := Walk(attrs, steps, i, msg, platform, invoked);
      WalkStep(attrs, steps, i, msg, platform, invoked, s);
      if Passes(s) {
        InvokedAreReached(attrs, steps, i + 1, msg, platform, invoked');
        assert d == Walk(attrs, steps, i + 1, msg, platform, invoked');
        assert d.invoked[..|invoked|] == d.invoked[..|invoked'|][..|invoked|];
        forall k | |invoked| <= k < |d.invoked|
          ensures Reached(steps, i, d.invoked[k])
        {
          if k < |invoked'| {
            assert d.invoked[k] == invoked'[k] == i;
          } else {
            ReachedEarlier(steps, i, d.invoked[k]);
          }
        }
      } else {
        assert d.invoked == invoked';
      }
    }
  }

  /** Bot messages and events other than "message" and "event_callback" are dropped without a reply. */
  lemma IgnoredEvents(attrs: seq<Attributes>, allowedUsers: set<string>, evt: EventsAPIEvent, platform: Platform)
    ensures evt.eventType != "message" && evt.eventType != "event_callback" ==>
              Handle(attrs, allowedUsers, evt, platform) == Dispatch(NoReply, [])
    ensures evt.inner.Message? && |evt.inner.msg.botID| > 0 ==>
              Handle(attrs, allowedUsers, evt, platform) == Dispatch(NoReply, [])
    ensures evt.inner.OtherEvent? && (evt.eventType == "message" || evt.eventType == "event_callback") ==>
              Handle(attrs, allowedUsers, evt, platform).outcome == Failed("received an unknown event type: " + evt.inner.typeName)
  {
  }

  /**
   * A mention-only descriptor is skipped for a plain message event, even
   * when its text mentions the bot.
   */
  lemma MentionRequiresAppMention(attribute: Attributes, msg: MessageEvent, allowedUsers: set<string>, platform: Platform)
    requires attribute.requireMention
    ensures Consider(attribute, msg, false, allowedUsers, platform) == Skip
    ensures !platform.containsBotMention(msg.text) ==> Consider(attribute, msg, true, allowedUsers, platform) == Skip
  {
  }

  /**
   * The permission check comes before the thread requirement: a sender
   * off the allow-list gets the error whatever the thread settings.
   */
  lemma PermissionBeforeThread(attribute: Attributes, msg: MessageEvent, allowedUsers: set<string>,
                               platform: Platform, args: seq<string>, inThread: bool)
    requires HasCommandPrefix(args, attribute.commands)
    requires !attribute.allowNonSplatUsers && |allowedUsers| > 0 && msg.user !in allowedUsers
    ensures Judge(attribute.(mustBeInThread := inThread), msg, allowedUsers, platform, args) ==
            Deny("user not allowed: user not allowed")
  {
  }

  /** Once the prefix, permission and thread checks pass, only the argument count decides. */
  lemma JudgeReachesArguments(attribute: Attributes, msg: MessageEvent, allowedUsers: set<string>,
                              platform: Platform, args: seq<string>)
    requires HasCommandPrefix(args, attribute.commands)
    requires attribute.allowNonSplatUsers || IsAllowedUser(allowedUsers, msg).None?
    requires !attribute.mustBeInThread || |platform.threadUrl(msg)| > 0
    ensures Judge(attribute, msg, allowedUsers, platform, args) == ArgumentStep(attribute, msg, args)
  {
  }

  /**
   * The argument-count replies: too few arguments, or more than a positive
   * required count, answer with the usage text instead of running the
   * callback; otherwise the callback's options are the reply.
   */
  lemma ArgumentBounds(attribute: Attributes, msg: MessageEvent, args: seq<string>)
    ensures |args| < attribute.requiredArgs ==>
              ArgumentStep(attribute, msg, args) ==
                Answer([Text(TooFewArguments(attribute.requiredArgs, attribute.helpMarkdown), true)], false)
    ensures 0 < attribute.requiredArgs < |args| ==>
              ArgumentStep(attribute, msg, args) ==
                Answer([Text(TooManyArguments(attribute.requiredArgs, attribute.helpMarkdown), true)], false)
    ensures ArgumentStep(attribute, msg, args).Answer? && ArgumentStep(attribute, msg, args).ran <==>
              attribute.requiredArgs <= |args| && (attribute.requiredArgs <= 0 || |args| == attribute.requiredArgs)
    ensures ArgumentStep(attribute, msg, args).Answer? && ArgumentStep(attribute, msg, args).ran ==>
              ArgumentStep(attribute, msg, args).options == attribute.callback(msg, args).options
  {
    var step := ArgumentStep(attribute, msg, args);
    var n := attribute.requiredArgs;
    if |args| < n {
      var reply := TooFewArguments(n, attribute.helpMarkdown);
      assert step == Answer([Text(reply, true)], false);
    } else if 0 < n < |args| {
      var reply := TooManyArguments(n, attribute.helpMarkdown);
      assert step == Answer([Text(reply, true)], false);
    } else {
      assert step == Answer(attribute.callback(msg, args).options, true);
    }
  }

  /** Two descriptors that differ at most in `MaxArgs`. */
  ghost predicate SameButMaxArgs(x: Attributes, y: Attributes)
  {
    x.commands == y.commands && x.requireMention == y.requireMention && x.dontGlobQuotes == y.dontGlobQuotes &&
    x.allowNonSplatUsers == y.allowNonSplatUsers && x.mustBeInThread == y.mustBeInThread &&
    x.requiredArgs == y.requiredArgs && x.helpMarkdown == y.helpMarkdown && x.respondInDM == y.respondInDM &&
    x.respondInChannel == y.respondInChannel && x.callback == y.callback && x.messageOfInterest == y.messageOfInterest
  }

  lemma ConsiderIgnoresMaxArgs(x: Attributes, y: Attributes, msg: MessageEvent, isAppMention: bool,
                               allowedUsers: set<string>, platform: Platform)
    requires SameButMaxArgs(x, y)
    ensures Consider(x, msg, isAppMention, allowedUsers, platform) == Consider(y, msg, isAppMention, allowedUsers, platform)
  {
    assert CommandArgs(x, msg.text, platform) == CommandArgs(y, msg.text, platform);
    var args := CommandArgs(x, msg.text, platform);
    if args.Some? {
      JudgeIgnoresMaxArgs(x, y, msg, allowedUsers, platform, args.value);
    }
  }

  lemma JudgeIgnoresMaxArgs(x: Attributes, y: Attributes, msg: MessageEvent, allowedUsers: set<string>,
                            platform: Platform, args: seq<string>)
    requires SameButMaxArgs(x, y)
    ensures Judge(x, msg, allowedUsers, platform, args) == Judge(y, msg, allowedUsers, platform, args)
  {
    assert x.commands == y.commands && x.allowNonSplatUsers == y.allowNonSplatUsers;
    assert x.mustBeInThread == y.mustBeInThread;
    ArgumentStepIgnoresMaxArgs(x, y, msg, args);
  }

  lemma ArgumentStepIgnoresMaxArgs(x: Attributes, y: Attributes, msg: MessageEvent, args: seq<string>)
    requires SameButMaxArgs(x, y)
    ensures ArgumentStep(x, msg, args) == ArgumentStep(y, msg, args)
  {
    assert x.requiredArgs == y.requiredArgs && x.helpMarkdown == y.helpMarkdown && x.callback == y.callback;
  }

  lemma {:induction false} WalkIgnoresMaxArgs(a: seq<Attributes>, b: seq<Attributes>, steps: seq<Step>, i: nat,
                                              msg: MessageEvent, platform: Platform, invoked: seq<nat>)
    requires |a| == |b| == |steps| && i <= |a|
    requires forall k :: 0 <= k < |a| ==> SameButMaxArgs(a[k], b[k])
    ensures Walk(a, steps, i, msg, platform, invoked) == Walk(b, steps, i, msg, platform, invoked)
    decreases |a| - i
  {
    if i < |a| {
      var s := steps[i];
      assert SameButMaxArgs(a[i], b[i]);
      WalkStep(a, steps, i, msg, platform, invoked, s);
      WalkStep(b, steps, i, msg, platform, invoked, s);
      if s.Answer? {
        assert Route(a[i], msg, s.options, platform) == Route(b[i], msg, s.options, platform);
      }
      WalkIgnoresMaxArgs(a, b, steps, i + 1, msg, platform, if s.Answer? && s.ran then invoked + [i] else invoked);
    }
  }

  /**
   * `MaxArgs` is stored but never consulted: registries that differ only in
   * it handle every event alike.
   */
  lemma MaxArgsNeverConsulted(a: seq<Attributes>, b: seq<Attributes>, allowedUsers: set<string>,
                              evt: EventsAPIEvent, platform: Platform)
    requires |a| == |b|
    requires forall k :: 0 <= k < |a| ==> SameButMaxArgs(a[k], b[k])
    ensures Handle(a, allowedUsers, evt, platform) == Handle(b, allowedUsers, evt, platform)
  {
    if evt.eventType == "message" || evt.eventType == "event_callback" {
      if !evt.inner.OtherEvent? {
        var isAppMention := evt.inner.AppMention?;
        var msg := if isAppMention
                   then MessageEvent(evt.inner.channel, evt.inner.user, evt.inner.text, evt.inner.timeStamp,
                                     evt.inner.threadTimeStamp, "")
                   else evt.inner.msg;
        var sa := Steps(a, msg, isAppMention, allowedUsers, platform);
        var sb := Steps(b, msg, isAppMention, allowedUsers, platform);
        forall j | 0 <= j < |a|
          ensures sa[j] == sb[j]
        {
          ConsiderIgnoresMaxArgs(a[j], b[j], msg, isAppMention, allowedUsers, platform);
        }
        assert sa == sb;
        WalkIgnoresMaxArgs(a, b, sa, 0, msg, platform, []);
      }
    }
  }

  /** The reply's destination, in order of precedence: DM, anchored to the message, the thread, the channel. */
  lemma RoutingOrder(attribute: Attributes, msg: MessageEvent, options: seq<MsgOption>, platform: Platform)
    ensures attribute.respondInDM ==> Route(attribute, msg, options, platform).options == options
    ensures attribute.respondInDM && platform.openConversation(msg.user).Err? ==> Route(attribute, msg, options, platform).channel == ""
    ensures !attribute.respondInDM ==> Route(attribute, msg, options, platform).channel == msg.channel
    ensures !attribute.respondInDM && !attribute.respondInChannel ==>
              Route(attribute, msg, options, platform).options == options + [ThreadTimestamp(msg.timeStamp)]
    ensures !attribute.respondInDM && attribute.respondInChannel && |platform.threadUrl(msg)| > 0 ==>
              Route(attribute, msg, options, platform).options == options + [ThreadTimestamp(msg.threadTimeStamp)]
    ensures !attribute.respondInDM && attribute.respondInChannel && |platform.threadUrl(msg)| == 0 ==>
              Route(attribute, msg, options, platform).options == options
  {
  }
}
