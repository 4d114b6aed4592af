/**
 * Worked examples of the command dispatcher on concrete messages: a
 * tokenisation with a quoted argument, and the unsized-stories command
 * ("jira unsized <project>", three arguments, mention required) answered
 * with too few arguments and with enough.
 */
module CommandExamples {
  import opened Wrappers
  import opened Strings
  import opened Slack
  import opened Commands

  lemma GlobExampleWords()
    ensures WellFormed(Bare("jira")) && WellFormed(Bare("create")) && WellFormed(Bare("extra"))
  {
  }

  lemma GlobExampleText(title: string)
    ensures "jira" + " " + ("create" + " " + ("\"" + title + "\"" + " " + "extra")) == "jira create \"" + title + "\" extra"
  {
  }

  /** The example of the command reference: a quoted title stays one argument. */
  lemma GlobExample(title: string)
    requires '"' !in title
    ensures GlobTokens("jira create \"" + title + "\" extra") == ["jira", "create", title, "extra"]
  {
    GlobExampleWords();
    GlobSingle(Bare("extra"));
    var t3 := RenderArg(Quoted(title)) + " " + "extra";
    GlobCons(Quoted(title), "extra");
    var t2 := "create" + " " + t3;
    GlobCons(Bare("create"), t3);
    GlobCons(Bare("jira"), t2);
    GlobExampleText(title);
  }

  /** A descriptor shaped like the unsized-stories command: "jira unsized <project>", mention required. */
  function UnsizedLike(help: string, callback: Callback): Attributes
  {
    Attributes(["jira", "unsized"], true, false, false, false, 3, 0, help, false, false, callback, CommandPrefix)
  }

  /** A descriptor shaped like the create command: "jira create", mention required, registered before unsized-stories. */
  function CreateLike(help: string, callback: Callback): Attributes
  {
    Attributes(["jira", "create"], true, false, false, false, 2, 4, help, false, false, callback, CommandPrefix)
  }

  /**
   * The mention alone, or the mention and "jira", reaches the create
   * descriptor with fewer arguments than command words: its prefix test
   * indexes past them and handling panics before unsized-stories is tried.
   */
  lemma PrefixMentionPanics(help: string, callback: Callback, msg: MessageEvent, platform: Platform, mention: string)
    requires platform.containsBotMention(msg.text) && |msg.botID| == 0
    requires WellFormed(Bare(mention))
    requires msg.text == mention || msg.text == mention + " jira"
    ensures HandleMessage([CreateLike(help, callback), UnsizedLike(help, callback)], {}, msg, true, platform) ==
            Dispatch(Panicked, [])
  {
    var attrs := [CreateLike(help, callback), UnsizedLike(help, callback)];
    UnsizedWords();
    if msg.text == mention {
      GlobWords([mention]);
      assert Join([mention], " ") == mention;
      assert CommandArgs(attrs[0], msg.text, platform) == Some([]);
    } else {
      GlobWords([mention, "jira"]);
      assert Join([mention, "jira"], " ") == mention + " jira";
      assert CommandArgs(attrs[0], msg.text, platform) == Some(["jira"]);
      assert ["jira", "create"][..1] == ["jira"];
    }
    var steps := Steps(attrs, msg, true, {}, platform);
    assert steps[0] == Crash;
  }

  lemma UnsizedWords()
    ensures WellFormed(Bare("jira")) && WellFormed(Bare("unsized"))
  {
  }

  lemma UnsizedTokensShort(mention: string)
    requires WellFormed(Bare(mention))
    ensures GlobTokens(mention + " jira unsized") == [mention, "jira", "unsized"]
  {
    var words := [mention, "jira", "unsized"];
    UnsizedWords();
    GlobWords(words);
    assert words[1..][1..] == ["unsized"];
    assert Join(words[1..], " ") == "jira" + " " + "unsized";
    assert Join(words, " ") == mention + " " + Join(words[1..], " ");
    assert " " + ("jira" + " " + "unsized") == " jira unsized";
    assert mention + " " + ("jira" + " " + "unsized") == mention + " jira unsized";
  }

  lemma UnsizedTextFull(mention: string, project: string)
    ensures mention + " " + ("jira" + " " + ("unsized" + " " + project)) == mention + " jira unsized " + project
  {
    assert " " + ("jira" + " " + ("unsized" + " ")) == " jira unsized ";
  }

  lemma UnsizedTokensFull(mention: string, project: string)
    requires WellFormed(Bare(mention)) && WellFormed(Bare(project))
    ensures GlobTokens(mention + " jira unsized " + project) == [mention, "jira", "unsized", project]
  {
    var words := [mention, "jira", "unsized", project];
    UnsizedWords();
    GlobWords(words);
    assert words[1..][1..][1..] == [project];
    assert Join(words[1..][1..], " ") == "unsized" + " " + project;
    assert Join(words[1..], " ") == "jira" + " " + Join(words[1..][1..], " ");
    assert Join(words, " ") == mention + " " + Join(words[1..], " ");
    UnsizedTextFull(mention, project);
  }

  lemma UnsizedUsage(help: string)
    ensures TooFewArguments(3, help) == "command requires 3 arguments.\n" + help + "\n"
  {
    assert IntToString(3) == "3";
    assert "command requires " + "3" + " arguments.\n" == "command requires 3 arguments.\n";
  }

  /**
   * With the bot mentioned, only the mention token is dropped: "@bot jira
   * unsized" has two arguments and gets the usage reply, "@bot jira unsized
   * <project>" reaches the callback with the three words.
   */
  lemma UnsizedExample(help: string, callback: Callback, msg: MessageEvent, platform: Platform,
                       mention: string, project: string)
    requires platform.containsBotMention(msg.text)
    requires WellFormed(Bare(mention)) && WellFormed(Bare(project))
    ensures msg.text == mention + " jira unsized" ==>
              Consider(UnsizedLike(help, callback), msg, true, {}, platform) ==
              Answer([Text("command requires 3 arguments.\n" + help + "\n", true)], false)
    ensures msg.text == mention + " jira unsized " + project ==>
              Consider(UnsizedLike(help, callback), msg, true, {}, platform) ==
              Answer(callback(msg, ["jira", "unsized", project]).options, true)
  {
    var attribute := UnsizedLike(help, callback);
    if msg.text == mention + " jira unsized" {
      UnsizedTokensShort(mention);
      var args := [mention, "jira", "unsized"][1..];
      assert args == ["jira", "unsized"];
      assert CommandArgs(attribute, msg.text, platform) == Some(args);
      assert HasCommandPrefix(args, attribute.commands);
      UnsizedUsage(help);
      assert Judge(attribute, msg, {}, platform, args) == ArgumentStep(attribute, msg, args);
    } else if msg.text == mention + " jira unsized " + project {
      UnsizedTokensFull(mention, project);
      var args := [mention, "jira", "unsized", project][1..];
      assert args == ["jira", "unsized", project];
      assert CommandArgs(attribute, msg.text, platform) == Some(args);
      assert HasCommandPrefix(args, attribute.commands) by {
        assert args[..2] == ["jira", "unsized"];
      }
      assert Judge(attribute, msg, {}, platform, args) == ArgumentStep(attribute, msg, args);
    }
  }
}
