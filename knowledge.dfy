/**
 * The knowledge package: evaluation of an asset's condition tree with its
 * write-back and package-level depth counter, the trace dump of a tree, the
 * two predicates registered with the expression engine, the channel-name
 * cache, and the per-asset selection loop of the default knowledge handler.
 */
module Knowledge {
  import opened Wrappers
  import opened Strings
  import opened Slack
  import opened MatchTree

  // ---------------------------------------------------------------------
  // Trace dump of a condition tree
  // ---------------------------------------------------------------------

  /** The `*int64` depth cell that `DumpMatchTree` shares with its recursive calls. */
  class DepthCell {
    var value: int

    constructor (v: int)
      ensures value == v
    {
      value := v;
    }
  }

  /** The match type printed for a node: its `Type`, or "OR" when that is empty. */
  function MatchTypeName(m: TokenMatch): string
  {
    if |m.kind| > 0 then m.kind else "OR"
  }

  const MatchLabel := " Match: "
  const MatchTypeLabel := "; Match Type: "
  const TokensLabel := " Immediate Tokens: "
  const DescendantsLabel := " Number of Descendant Terms(all terms must match in addition to tokens): "

  /** The first line for a node: its last result and its match type. */
  function HeaderLine(m: TokenMatch, d: nat): string
  {
    Repeat(" ", d) + (MatchLabel + BoolToString(m.satisfied) + MatchTypeLabel + MatchTypeName(m))
  }

  /** The second line for a node: its own tokens, comma separated. */
  function TokensLine(m: TokenMatch, d: nat): string
  {
    Repeat(" ", d) + (TokensLabel + Join(m.tokens, ","))
  }

  /** The line announcing how many terms a node has. */
  function DescendantsLine(m: TokenMatch, d: nat): string
  {
    Repeat(" ", d) + (DescendantsLabel + NatToString(|m.terms|))
  }

  /** The lines printed for one node at depth `d`, each padded with `d` spaces. */
  function NodeLines(m: TokenMatch, d: nat): seq<string>
  {
    [HeaderLine(m, d), TokensLine(m, d)] + (if |m.terms| > 0 then [DescendantsLine(m, d)] else [])
  }

  /** The trace of a tree whose root sits at depth `d`: the node, then its terms one level deeper. */
  function DumpLines(m: TokenMatch, d: nat): seq<string>
    decreases m, 1, 0
  {
    NodeLines(m, d) + DumpTerms(m, 0, d + 1)
  }

  /** The traces of the terms of `m` from index `i` on, each at depth `d`. */
  function DumpTerms(m: TokenMatch, i: nat, d: nat): seq<string>
    requires i <= |m.terms|
    decreases m, 0, |m.terms| - i
  {
    if i == |m.terms| then [] else DumpLines(m.terms[i], d) + DumpTerms(m, i + 1, d)
  }

  /** Number of nodes of a tree. */
  function Size(m: TokenMatch): nat
    decreases m, 1, 0
  {
    1 + SizeFrom(m, 0)
  }

  function SizeFrom(m: TokenMatch, i: nat): nat
    requires i <= |m.terms|
    decreases m, 0, |m.terms| - i
  {
    if i == |m.terms| then 0 else Size(m.terms[i]) + SizeFrom(m, i + 1)
  }

  /** Number of nodes that have terms. */
  function Branching(m: TokenMatch): nat
    decreases m, 1, 0
  {
    (if |m.terms| > 0 then 1 else 0) + BranchingFrom(m, 0)
  }

  function BranchingFrom(m: TokenMatch, i: nat): nat
    requires i <= |m.terms|
    decreases m, 0, |m.terms| - i
  {
    if i == |m.terms| then 0 else Branching(m.terms[i]) + BranchingFrom(m, i + 1)
  }

  /**
   * `DumpMatchTree`: appends the trace of `m` to `messages`. A nil depth
   * starts the root at depth 0; a given cell is bumped for this node and
   * restored before returning.
   */
  method DumpMatchTree(m: TokenMatch, depth: DepthCell?, messages: seq<string>) returns (r: seq<string>)
    requires depth != null ==> depth.value >= -1
    modifies depth
    ensures depth != null ==> depth.value == old(depth.value)
    ensures r == messages + DumpLines(m, if depth == null then 0 else old(depth.value) + 1)
    decreases m, 1
  {
    ghost var start := if depth == null then 0 else depth.value + 1;
    var cell := depth;
    if cell == null {
      cell := new DepthCell(0);
    } else {
      cell.value := cell.value + 1;
    }
    var d: nat := cell.value;
    assert d == start;
    DumpLinesAfter(messages, m, d);
    r := messages + [HeaderLine(m, d), TokensLine(m, d)];
    if |m.terms| > 0 {
      r := DumpChildren(m, cell, r + [DescendantsLine(m, d)]);
    }
    cell.value := cell.value - 1;
  }

  /** The trace appended to `messages`, as `DumpMatchTree` builds it: the node's lines, then its terms'. */
  lemma DumpLinesAfter(messages: seq<string>, m: TokenMatch, d: nat)
    ensures messages + DumpLines(m, d) ==
            if |m.terms| > 0
            then (messages + [HeaderLine(m, d), TokensLine(m, d)] + [DescendantsLine(m, d)]) + DumpTerms(m, 0, d + 1)
            else messages + [HeaderLine(m, d), TokensLine(m, d)]
  {
    if |m.terms| == 0 {
      assert DumpTerms(m, 0, d + 1) == [];
    }
  }

  /** The loop of `DumpMatchTree` over the terms of `m`, with the cell at the parent's depth. */
  method DumpChildren(m: TokenMatch, cell: DepthCell, messages: seq<string>) returns (r: seq<string>)
    requires cell.value >= 0
    modifies cell
    ensures cell.value == old(cell.value)
    ensures r == messages + DumpTerms(m, 0, cell.value + 1)
    decreases m, 0
  {
    var d: nat := cell.value;
    r := messages;
    var i := 0;
    while i < |m.terms|
      invariant 0 <= i <= |m.terms|
      invariant cell.value == d
      invariant r + DumpTerms(m, i, d + 1) == messages + DumpTerms(m, 0, d + 1)
    {
      DumpTermsAfter(r, m, i, d + 1);
      r := DumpMatchTree(m.terms[i], cell, r);
      i := i + 1;
    }
  }

  /** One iteration of `DumpChildren`: the next term's trace, then the rest. */
  lemma DumpTermsAfter(messages: seq<string>, m: TokenMatch, i: nat, d: nat)
    requires i < |m.terms|
    ensures messages + DumpTerms(m, i, d) == (messages + DumpLines(m.terms[i], d)) + DumpTerms(m, i + 1, d)
  {
  }

  /** The trace has two lines per node and one more per node that has terms. */
  lemma {:induction false} DumpLineCount(m: TokenMatch, d: nat)
    ensures |DumpLines(m, d)| == 2 * Size(m) + Branching(m)
    decreases m, 1, 0
  {
    DumpTermsLineCount(m, 0, d + 1);
  }

  lemma {:induction false} DumpTermsLineCount(m: TokenMatch, i: nat, d: nat)
    requires i <= |m.terms|
    ensures |DumpTerms(m, i, d)| == 2 * SizeFrom(m, i) + BranchingFrom(m, i)
    decreases m, 0, |m.terms| - i
  {
    if i < |m.terms| {
      DumpLineCount(m.terms[i], d);
      DumpTermsLineCount(m, i + 1, d);
    }
  }

  lemma {:induction false} RepeatSpaces(n: nat)
    ensures forall i :: 0 <= i < n ==> Repeat(" ", n)[i] == ' '
  {
    if n > 0 {
      RepeatSpaces(n - 1);
      assert Repeat(" ", n) == " " + Repeat(" ", n - 1);
    }
  }

  lemma SpacesPrefix(d: nat, e: nat)
    requires d <= e
    ensures Repeat(" ", e)[..d] == Repeat(" ", d)
  {
    RepeatSpaces(d);
    RepeatSpaces(e);
  }

  /** The node's own lines start with `d` spaces. */
  lemma NodeLinesPadded(m: TokenMatch, d: nat)
    ensures forall k :: 0 <= k < |NodeLines(m, d)| ==> HasPrefix(NodeLines(m, d)[k], Repeat(" ", d))
  {
    var pad := Repeat(" ", d);
    PaddedPrefix(pad, MatchLabel + BoolToString(m.satisfied) + MatchTypeLabel + MatchTypeName(m));
    PaddedPrefix(pad, TokensLabel + Join(m.tokens, ","));
    PaddedPrefix(pad, DescendantsLabel + NatToString(|m.terms|));
  }

  lemma PaddedPrefix(pad: string, s: string)
    ensures HasPrefix(pad + s, pad)
  {
    assert (pad + s)[..|pad|] == pad;
  }

  /** Every line of the trace of a tree rooted at depth `d` starts with at least `d` spaces. */
  lemma {:induction false} DumpPadding(m: TokenMatch, d: nat)
    ensures forall k :: 0 <= k < |DumpLines(m, d)| ==> HasPrefix(DumpLines(m, d)[k], Repeat(" ", d))
    ensures DumpLines(m, d)[0] == Repeat(" ", d) + (MatchLabel + BoolToString(m.satisfied) + MatchTypeLabel + MatchTypeName(m))
    ensures m.kind == "" ==> MatchTypeName(m) == "OR"
    decreases m, 1, 0
  {
    var own := NodeLines(m, d);
    var rest := DumpTerms(m, 0, d + 1);
    NodeLinesPadded(m, d);
    DumpTermsPadding(m, 0, d + 1);
    SpacesPrefix(d, d + 1);
    assert DumpLines(m, d) == own + rest;
    forall k | 0 <= k < |DumpLines(m, d)|
      ensures HasPrefix(DumpLines(m, d)[k], Repeat(" ", d))
    {
      if k < |own| {
        assert DumpLines(m, d)[k] == own[k];
      } else {
        var line := rest[k - |own|];
        assert HasPrefix(line, Repeat(" ", d + 1));
        assert line[..d] == Repeat(" ", d + 1)[..d];
      }
    }
  }

  lemma {:induction false} DumpTermsPadding(m: TokenMatch, i: nat, d: nat)
    requires i <= |m.terms|
    ensures forall k :: 0 <= k < |DumpTerms(m, i, d)| ==> HasPrefix(DumpTerms(m, i, d)[k], Repeat(" ", d))
    decreases m, 0, |m.terms| - i
  {
    if i < |m.terms| {
      DumpPadding(m.terms[i], d);
      DumpTermsPadding(m, i + 1, d);
      var a := DumpLines(m.terms[i], d);
      var b := DumpTerms(m, i + 1, d);
      forall k | 0 <= k < |a + b|
        ensures HasPrefix((a + b)[k], Repeat(" ", d))
      {
        if k < |a| { assert (a + b)[k] == a[k]; } else { assert (a + b)[k] == b[k - |a|]; }
      }
    }
  }

  // ---------------------------------------------------------------------
  // Predicates registered with the expression engine
  // ---------------------------------------------------------------------

  /** `containsAny(tokens, list)`: some listed token is a key of the map. */
  method ContainsAny(tokenMap: TokenMap, params: seq<string>) returns (result: bool)
    ensures result <==> exists i :: 0 <= i < |params| && params[i] in tokenMap
    ensures |params| == 0 ==> !result
  {
    result := false;
    var i := 0;
    while i < |params|
      invariant 0 <= i <= |params|
      invariant !result
      invariant forall j :: 0 <= j < i ==> params[j] !in tokenMap
    {
      if params[i] in tokenMap {
        result := true;
        break;
      }
      i := i + 1;
    }
  }

  /** `containsAll(tokens, list)`: the list is non-empty and every listed token is a key. */
  method ContainsAll(tokenMap: TokenMap, params: seq<string>) returns (result: bool)
    ensures result <==> |params| > 0 && forall i :: 0 <= i < |params| ==> params[i] in tokenMap
  {
    result := |params| > 0;
    var i := 0;
    while i < |params|
      invariant 0 <= i <= |params|
      invariant result == (|params| > 0)
      invariant forall j :: 0 <= j < i ==> params[j] in tokenMap
    {
      if params[i] !in tokenMap {
        result := false;
        break;
      }
      i := i + 1;
    }
  }

  // ---------------------------------------------------------------------
  // Knowledge assets and their collaborators
  // ---------------------------------------------------------------------

  /** `ChannelContext`: channels that imply the context terms found under `contextPath`. */
  datatype ChannelContext = ChannelContext(channels: seq<string>, contextPath: string)

  /** `data.KnowledgeAsset`, with the fields the selection reads. */
  datatype KnowledgeAsset = KnowledgeAsset(
    name: string,
    on: TokenMatch,
    channelContext: Option<ChannelContext>,
    requireInChannel: seq<string>,
    watchThreads: bool,
    markdownPrompt: string,
    urls: seq<string>)

  /**
   * The Slack client as the channel lookup sees it: whether a client can be
   * obtained, and the channel name `GetConversationInfo` returns for an id.
   */
  datatype SlackOracle = SlackOracle(clientAvailable: bool, conversationName: string -> Result<string>)

  /**
   * The collaborators of the selection loop: the token normaliser, the
   * context terms found for a path, and the Slack client.
   */
  datatype Env = Env(
    normalize: seq<string> -> TokenMap,
    contextTerms: string -> seq<TokenMatch>,
    slack: SlackOracle)

  /** `IsMatch`: the asset's tree against the normalised tokens (the asset is a copy). */
  function IsMatch(asset: KnowledgeAsset, tokens: seq<string>, normalize: seq<string> -> TokenMap): bool
  {
    Eval(asset.on, normalize(tokens))
  }

  /** `IsStringMatch`: `IsMatch` on the text split at single spaces. */
  function IsStringMatch(asset: KnowledgeAsset, str: string, normalize: seq<string> -> TokenMap): bool
  {
    IsMatch(asset, Split(str, ' '), normalize)
  }

  /** Matching a text is matching the words it was joined from. */
  lemma IsStringMatchOfWords(asset: KnowledgeAsset, words: seq<string>, normalize: seq<string> -> TokenMap)
    requires |words| >= 1
    requires forall i :: 0 <= i < |words| ==> ' ' !in words[i]
    ensures IsStringMatch(asset, Join(words, " "), normalize) == IsMatch(asset, words, normalize)
  {
    SplitJoin(words, ' ');
  }

  /** Whether an asset matches does not depend on the flags a previous evaluation left in it. */
  lemma IsMatchIgnoresFlags(asset: KnowledgeAsset, tokens: seq<string>, normalize: seq<string> -> TokenMap, earlier: TokenMap)
    ensures IsMatch(asset.(on := Evaluated(asset.on, earlier)), tokens, normalize) == IsMatch(asset, tokens, normalize)
  {
    EvaluatedKeepsShape(asset.on, earlier);
    SameShapeSameResult(Evaluated(asset.on, earlier), asset.on, normalize(tokens));
  }

  // ---------------------------------------------------------------------
  // Channel-name cache
  // ---------------------------------------------------------------------

  /** The outcome of one `getChannelName` call: the result, the cache after it, and whether Slack was asked. */
  datatype Lookup = Lookup(result: Result<string>, cache: map<string, string>, fetched: bool)

  /**
   * `getChannelName`: fails without a client (even for a cached id); a cached
   * id is answered from the cache; otherwise Slack is asked and a name it
   * returns is stored.
   */
  function ChannelLookup(cache: map<string, string>, channelID: string, slack: SlackOracle): Lookup
  {
    if !slack.clientAvailable then Lookup(Err(NoClientError), cache, false)
    else if channelID in cache then Lookup(Ok(cache[channelID]), cache, false)
    else
      match slack.conversationName(channelID)
      case Err(e) => Lookup(Err(ChannelInfoError + e), cache, true)
      case Ok(name) => Lookup(Ok(name), cache[channelID := name], true)
  }

  /** After one successful lookup the id is cached: asking again gives the same name without a Slack call. */
  lemma ChannelLookupMemoises(cache: map<string, string>, channelID: string, slack: SlackOracle)
    requires ChannelLookup(cache, channelID, slack).result.Ok?
    ensures var first := ChannelLookup(cache, channelID, slack);
            ChannelLookup(first.cache, channelID, slack) == Lookup(first.result, first.cache, false)
  {
  }

  // ---------------------------------------------------------------------
  // Selection loop of the default knowledge handler
  // ---------------------------------------------------------------------

  /** The state of the selection loop after some prefix of the assets. */
  datatype Scan = Scan(
    args: seq<string>,            // the tokens, with injected context tokens
    channel: string,              // the channel name, "" until resolved
    cache: map<string, string>,   // channelIDMap
    assets: seq<KnowledgeAsset>,  // knowledgeAssets, with written-back trees
    matches: seq<nat>,            // indices of the matching assets, in order
    fetches: seq<string>,         // GetConversationInfo calls made
    error: Option<string>)        // the error that ended the loop

  /** The tokens of a list of context terms, in order. */
  function TermTokens(terms: seq<TokenMatch>): seq<string>
  {
    if terms == [] then [] else terms[0].tokens + TermTokens(terms[1..])
  }

  /** Resolves the channel name when it is still empty. */
  function ResolveChannel(s: Scan, ev: MessageEvent, env: Env): (r: Scan)
    ensures r.args == s.args && r.assets == s.assets && r.matches == s.matches
    ensures s.channel != "" ==> r == s
  {
    if s.channel != "" then s
    else
      var l := ChannelLookup(s.cache, ev.channel, env.slack);
      var s' := s.(cache := l.cache, fetches := s.fetches + (if l.fetched then [ev.channel] else []));
      match l.result
      case Err(e) => s'.(error := Some(ChannelNameError + e))
      case Ok(name) => s'.(channel := name)
  }

  /** Does the asset skip a message on these grounds: a thread it does not watch. */
  predicate SkipsThread(a: KnowledgeAsset, ev: MessageEvent)
  {
    !a.watchThreads && ev.threadTimeStamp != ""
  }

  /** The channel-context stage: resolve the channel and inject the context tokens when it is listed. */
  function ContextStage(s: Scan, a: KnowledgeAsset, ev: MessageEvent, env: Env): (r: Scan)
    ensures r.assets == s.assets && r.matches == s.matches
    ensures |s.args| <= |r.args| && r.args[..|s.args|] == s.args
  {
    if a.channelContext.None? then s
    else
      var c := ResolveChannel(s, ev, env);
      if c.error.Some? then c
      else if c.channel in a.channelContext.value.channels
      then c.(args := c.args + TermTokens(env.contextTerms(a.channelContext.value.contextPath)))
      else c
  }

  /** The channel-restriction stage: resolve the channel when the asset lists channels. */
  function GateStage(s: Scan, a: KnowledgeAsset, ev: MessageEvent, env: Env): (r: Scan)
    ensures r.assets == s.assets && r.matches == s.matches && r.args == s.args
  {
    if |a.requireInChannel| > 0 then ResolveChannel(s, ev, env) else s
  }

  /** Whether the resolved channel passes the asset's channel restriction. */
  predicate Admitted(s: Scan, a: KnowledgeAsset)
  {
    |a.requireInChannel| == 0 || s.channel in a.requireInChannel
  }

  /** The evaluation stage: write the evaluated tree back and record a match. */
  function EvaluateStage(s: Scan, idx: nat, a: KnowledgeAsset, env: Env): (r: Scan)
    requires idx < |s.assets|
    ensures r.args == s.args && r.channel == s.channel && r.cache == s.cache &&
            r.fetches == s.fetches && r.error == s.error
    ensures r.assets == s.assets[idx := a.(on := Evaluated(a.on, env.normalize(s.args)))]
    ensures r.matches == if Eval(a.on, env.normalize(s.args)) then s.matches + [idx] else s.matches
  {
    var tokens := env.normalize(s.args);
    var s3 := s.(assets := s.assets[idx := a.(on := Evaluated(a.on, tokens))]);
    if Eval(a.on, tokens) then s3.(matches := s3.matches + [idx]) else s3
  }

  /** One iteration of the selection loop, for asset `idx`. */
  function ScanStep(s: Scan, idx: nat, a: KnowledgeAsset, ev: MessageEvent, env: Env): (r: Scan)
    requires idx < |s.assets|
    ensures |r.assets| == |s.assets|
    ensures forall k :: 0 <= k < |s.assets| && k != idx ==> r.assets[k] == s.assets[k]
    ensures r.matches == s.matches || r.matches == s.matches + [idx]
    ensures |s.args| <= |r.args| && r.args[..|s.args|] == s.args
  {
    if SkipsThread(a, ev) then s
    else
      var s1 := ContextStage(s, a, ev, env);
      if s1.error.Some? then s1
      else
        var s2 := GateStage(s1, a, ev, env);
        if s2.error.Some? || !Admitted(s2, a) then s2
        else EvaluateStage(s2, idx, a, env)
  }

  /** The selection loop after the first `n` assets. */
  function ScanUpTo(orig: seq<KnowledgeAsset>, n: nat, ev: MessageEvent, args: seq<string>,
                    cache: map<string, string>, env: Env): (r: Scan)
    requires n <= |orig|
    ensures |r.assets| == |orig|
    ensures forall k :: n <= k < |orig| ==> r.assets[k] == orig[k]
    ensures forall i :: 0 <= i < |r.matches| ==> r.matches[i] < n
    decreases n, 1
  {
    if n == 0 then Scan(args, "", cache, orig, [], [], None)
    else
      var s := ScanUpTo(orig, n - 1, ev, args, cache, env);
      if s.error.Some? then s else StateAfter(orig, n - 1, ev, args, cache, env)
  }

  /**
   * The state once asset `k` has been considered, when the loop reached it.
   * It and `StepFrom` are kept apart from `ScanUpTo` so that unfolding the
   * loop state does not also unfold an iteration.
   */
  function StateAfter(orig: seq<KnowledgeAsset>, k: nat, ev: MessageEvent, args: seq<string>,
                      cache: map<string, string>, env: Env): (r: Scan)
    requires k < |orig|
    ensures |r.assets| == |orig|
    ensures forall j :: k < j < |orig| ==> r.assets[j] == orig[j]
    ensures forall i :: 0 <= i < |r.matches| ==> r.matches[i] <= k
    decreases k, 3
  {
    StepFrom(orig, k, ev, args, cache, env)
  }

  /** Iteration `k` applied to the state before it. */
  function StepFrom(orig: seq<KnowledgeAsset>, k: nat, ev: MessageEvent, args: seq<string>,
                    cache: map<string, string>, env: Env): Scan
    requires k < |orig|
    decreases k, 2
  {
    ScanStep(ScanUpTo(orig, k, ev, args, cache, env), k, orig[k], ev, env)
  }

  /** One step of the selection loop, spelled out. */
  lemma ScanUnfold(orig: seq<KnowledgeAsset>, n: nat, ev: MessageEvent, args: seq<string>,
                   cache: map<string, string>, env: Env)
    requires 0 < n <= |orig|
    ensures var s := ScanUpTo(orig, n - 1, ev, args, cache, env);
            ScanUpTo(orig, n, ev, args, cache, env) == if s.error.Some? then s else ScanStep(s, n - 1, orig[n - 1], ev, env)
  {
    assert StateAfter(orig, n - 1, ev, args, cache, env) == StepFrom(orig, n - 1, ev, args, cache, env);
  }

  /** One more asset, for the state the loop body computes. */
  lemma ScanAdvance(orig: seq<KnowledgeAsset>, n: nat, ev: MessageEvent, args: seq<string>,
                    cache: map<string, string>, env: Env, t: Scan)
    requires n < |orig|
    requires ScanUpTo(orig, n, ev, args, cache, env).error.None?
    requires t == ScanStep(ScanUpTo(orig, n, ev, args, cache, env), n, orig[n], ev, env)
    ensures ScanUpTo(orig, n + 1, ev, args, cache, env) == t
  {
    ScanUnfold(orig, n + 1, ev, args, cache, env);
  }

  const NoClientError := "unable to get client"
  const ChannelInfoError := "error getting channel info: "
  const ChannelNameError := "error getting channel name: "

  const UrlPrompt := "This may be a topic that I can help with.\n\n"

  /** The reply built from a matching asset: its prompt, with its links when it has any. */
  function AssetReply(a: KnowledgeAsset): seq<MsgOption>
  {
    var text := UrlPrompt + a.markdownPrompt;
    if |a.urls| > 0 then [UrlBlocks([text], a.urls)] else [Text(text, true)]
  }

  /** The handler's result after the whole loop: an error, the first match's reply, or no reply. */
  function HandlerResult(orig: seq<KnowledgeAsset>, s: Scan): Result<seq<MsgOption>>
    requires forall i :: 0 <= i < |s.matches| ==> s.matches[i] < |orig|
  {
    if s.error.Some? then Err(s.error.value)
    else if |s.matches| > 0 then Ok(AssetReply(orig[s.matches[0]]))
    else Ok([])
  }

  /** Appends the context terms' tokens when the channel is one of the context's channels. */
  method ContextTokens(channel: string, context: ChannelContext, env: Env, tokens: seq<string>) returns (r: seq<string>)
    ensures r == if channel in context.channels
                 then tokens + TermTokens(env.contextTerms(context.contextPath))
                 else tokens
  {
    r := tokens;
    var i := 0;
    while i < |context.channels|
      invariant 0 <= i <= |context.channels|
      invariant channel !in context.channels[..i]
    {
      if channel == context.channels[i] {
        var terms := env.contextTerms(context.contextPath);
        var j := 0;
        while j < |terms|
          invariant 0 <= j <= |terms|
          invariant r == tokens + TermTokens(terms[..j])
        {
          TermTokensSnoc(terms, j);
          r := r + terms[j].tokens;
          j := j + 1;
        }
        assert terms[..|terms|] == terms;
        return;
      }
      assert context.channels[..i + 1] == context.channels[..i] + [context.channels[i]];
      i := i + 1;
    }
    assert context.channels[..i] == context.channels;
  }

  /** Whether the channel is on the list, by a scan that stops at the first hit. */
  method InChannelList(channel: string, list: seq<string>) returns (found: bool)
    ensures found <==> channel in list
  {
    found := false;
    var i := 0;
    while i < |list|
      invariant 0 <= i <= |list|
      invariant !found && channel !in list[..i]
    {
      if channel == list[i] {
        found := true;
        return;
      }
      assert list[..i + 1] == list[..i] + [list[i]];
      i := i + 1;
    }
    assert list[..i] == list;
  }

  /**
   * What the term loop of `isTokenMatch` leaves behind once it has visited
   * its first `stop` terms (all of them for AND; up to the first true one
   * for OR): the node's value and its written-back terms.
   */
  lemma MatchTermsResult(m: TokenMatch, tokens: TokenMap, terms: seq<TokenMatch>, stop: nat, all: bool)
    requires m.compiled.None? && LiteralsMatch(m, tokens) && 0 < stop <= |m.terms| == |terms|
    requires forall k :: 0 <= k < stop ==> terms[k] == Evaluated(m.terms[k], tokens)
    requires forall k :: stop <= k < |m.terms| ==> terms[k] == m.terms[k]
    requires !IsOr(m) ==> stop == |m.terms| && (all <==> forall k :: 0 <= k < |m.terms| ==> Eval(m.terms[k], tokens))
    requires IsOr(m) ==> (forall k :: 0 <= k < stop - 1 ==> !Eval(m.terms[k], tokens)) &&
                         (all <==> Eval(m.terms[stop - 1], tokens)) && (!all ==> stop == |m.terms|)
    ensures all == Eval(m, tokens)
    ensures terms == Evaluated(m, tokens).terms
  {
    var e := Evaluated(m, tokens).terms;
    forall k | 0 <= k < |m.terms|
      ensures terms[k] == e[k]
    {
      if k < stop {
        assert Visited(m, tokens, k);
      } else {
        assert IsOr(m) && Eval(m.terms[stop - 1], tokens);
        assert !Visited(m, tokens, k);
      }
    }
  }

  /**
   * The knowledge package's state: the loaded assets, the channel-name
   * cache and the recursion-depth counter.
   */
  class KnowledgeBase {
    var assets: seq<KnowledgeAsset>
    var channelIDMap: map<string, string>
    var depth: int
    /** The channel ids passed to `GetConversationInfo`, in call order. */
    ghost var conversationInfoCalls: seq<string>

    constructor (assets: seq<KnowledgeAsset>)
      ensures this.assets == assets && channelIDMap == map[] && depth == 0 && conversationInfoCalls == []
    {
      this.assets := assets;
      channelIDMap := map[];
      depth := 0;
      conversationInfoCalls := [];
    }

    /**
     * `isTokenMatch`: returns the tree's value and the tree with the flags
     * written back; the depth counter is back at its old value afterwards.
     */
    method IsTokenMatch(m: TokenMatch, tokens: TokenMap) returns (ok: bool, written: TokenMatch)
      modifies this`depth
      ensures depth == old(depth)
      ensures ok == Eval(m, tokens)
      ensures written == Evaluated(m, tokens)
      ensures m.compiled.None? ==> written.satisfied == ok
      decreases m, 1
    {
      if m.compiled.Some? {
        var result := m.compiled.value(tokens);
        match result {
          case Err(_) => return false, m;
          case Ok(b) => return b, m;
        }
      }
      depth := depth + 1;
      var tokensMatch := true;
      var or := m.kind == "or";
      if |m.tokens| > 0 {
        if or {
          tokensMatch := TokensPresentOR(tokens, m.tokens);
        } else {
          tokensMatch := TokensPresentAND(tokens, m.tokens);
        }
      }
      assert tokensMatch == LiteralsMatch(m, tokens);
      var terms := m.terms;
      if tokensMatch && |m.terms| > 0 {
        tokensMatch, terms := MatchTerms(m, tokens);
      }
      depth := depth - 1;
      written := m.(terms := terms, satisfied := tokensMatch);
      ok := tokensMatch;
    }

    /**
     * The loop of `isTokenMatch` over the terms of a node whose token test
     * passed: whether the terms are satisfied, and the terms with their
     * flags written back.
     */
    method MatchTerms(m: TokenMatch, tokens: TokenMap) returns (all: bool, terms: seq<TokenMatch>)
      requires m.compiled.None? && LiteralsMatch(m, tokens) && |m.terms| > 0
      modifies this`depth
      ensures depth == old(depth)
      ensures all == Eval(m, tokens)
      ensures terms == Evaluated(m, tokens).terms
      decreases m, 0
    {
      var or := m.kind == "or";
      terms := m.terms;
      var satisfied := 0;
      var idx := 0;
      ghost var stop := |m.terms|;
      while idx < |m.terms|
        invariant 0 <= idx <= |m.terms|
        invariant depth == old(depth)
        invariant |terms| == |m.terms|
        invariant forall k :: 0 <= k < idx ==> terms[k] == Evaluated(m.terms[k], tokens)
        invariant forall k :: idx <= k < |m.terms| ==> terms[k] == m.terms[k]
        invariant or ==> satisfied == 0 && forall k :: 0 <= k < idx ==> !Eval(m.terms[k], tokens)
        invariant !or ==> satisfied <= idx && (satisfied == idx <==> forall k :: 0 <= k < idx ==> Eval(m.terms[k], tokens))
      {
        var tokenMatch, t := IsTokenMatch(m.terms[idx], tokens);
        terms := terms[idx := t];
        if tokenMatch {
          satisfied := satisfied + 1;
          if or {
            satisfied := |m.terms|;
            stop := idx + 1;
            break;
          }
        }
        idx := idx + 1;
      }
      all := satisfied == |m.terms|;
      MatchTermsResult(m, tokens, terms, stop, all);
    }

    /** `getChannelName`, with its cache in `channelIDMap`. */
    method GetChannelName(channelID: string, slack: SlackOracle) returns (r: Result<string>)
      modifies this`channelIDMap, this`conversationInfoCalls
      ensures var l := ChannelLookup(old(channelIDMap), channelID, slack);
              r == l.result && channelIDMap == l.cache &&
              conversationInfoCalls == old(conversationInfoCalls) + (if l.fetched then [channelID] else [])
    {
      if !slack.clientAvailable {
        return Err(NoClientError);
      }
      if channelID in channelIDMap {
        return Ok(channelIDMap[channelID]);
      }
      conversationInfoCalls := conversationInfoCalls + [channelID];
      var info := slack.conversationName(channelID);
      if info.Err? {
        return Err(ChannelInfoError + info.error);
      }
      channelIDMap := channelIDMap[channelID := info.value];
      return Ok(info.value);
    }

    /**
     * The loop state `tokens`, `channel`, `matches`, together with the
     * fields, is the scan state `s`; `base` is the call log before the loop.
     */
    ghost predicate Mirrors(s: Scan, tokens: seq<string>, channel: string, matches: seq<nat>, base: seq<string>)
      reads this
    {
      s.args == tokens && s.channel == channel && s.matches == matches &&
      s.cache == channelIDMap && s.assets == assets && conversationInfoCalls == base + s.fetches
    }

    /** Looks the channel name up unless it is already known. */
    method ResolveChannelName(channel: string, ev: MessageEvent, env: Env, ghost s: Scan,
                              tokens: seq<string>, matches: seq<nat>, ghost base: seq<string>)
      returns (channel': string, err: Option<string>)
      requires s.error.None?
      requires Mirrors(s, tokens, channel, matches, base)
      modifies this`channelIDMap, this`conversationInfoCalls
      ensures var t := ResolveChannel(s, ev, env);
              err == t.error && Mirrors(t, tokens, channel', matches, base)
    {
      channel' := channel;
      err := None;
      if channel == "" {
        var name := GetChannelName(ev.channel, env.slack);
        if name.Err? {
          err := Some(ChannelNameError + name.error);
        } else {
          channel' := name.value;
        }
      }
    }

    /**
     * One iteration of the selection loop for asset `idx`: skip it, or
     * resolve the channel, inject context tokens, apply the channel
     * restriction, and evaluate and write back its tree.
     */
    method ConsiderAsset(idx: nat, ev: MessageEvent, env: Env, ghost s: Scan,
                         tokens: seq<string>, channel: string, matches: seq<nat>, ghost base: seq<string>)
      returns (tokens': seq<string>, channel': string, matches': seq<nat>, err: Option<string>)
      requires idx < |assets| && s.error.None?
      requires Mirrors(s, tokens, channel, matches, base)
      modifies this
      ensures depth == old(depth)
      ensures var t := ScanStep(s, idx, old(assets)[idx], ev, env);
              err == t.error && Mirrors(t, tokens', channel', matches', base)
    {
      var entry := assets[idx];
      tokens', channel', matches', err := tokens, channel, matches, None;
      if SkipsThread(entry, ev) {
        return;
      }
      tokens', channel', err := ApplyContext(idx, ev, env, s, tokens, channel, matches, base);
      ghost var s1 := ContextStage(s, entry, ev, env);
      if err.Some? {
        return;
      }
      var admitted;
      channel', err, admitted := ApplyGate(idx, ev, env, s1, tokens', channel', matches, base);
      ghost var s2 := GateStage(s1, entry, ev, env);
      if err.Some? || !admitted {
        return;
      }
      matches' := EvaluateAsset(idx, env, s2, tokens', channel', matches, base);
    }

    /** The channel-context stage of one iteration. */
    method ApplyContext(idx: nat, ev: MessageEvent, env: Env, ghost s: Scan,
                        tokens: seq<string>, channel: string, matches: seq<nat>, ghost base: seq<string>)
      returns (tokens': seq<string>, channel': string, err: Option<string>)
      requires idx < |assets| && s.error.None?
      requires Mirrors(s, tokens, channel, matches, base)
      modifies this`channelIDMap, this`conversationInfoCalls
      ensures var t := ContextStage(s, assets[idx], ev, env);
              err == t.error && Mirrors(t, tokens', channel', matches, base)
    {
      var entry := assets[idx];
      tokens', channel', err := tokens, channel, None;
      if entry.channelContext.Some? {
        channel', err := ResolveChannelName(channel, ev, env, s, tokens, matches, base);
        ghost var s1 := ResolveChannel(s, ev, env);
        if err.Some? {
          return;
        }
        var context := entry.channelContext.value;
        tokens' := ContextTokens(channel', context, env, tokens);
        s1 := if channel' in context.channels
              then s1.(args := s1.args + TermTokens(env.contextTerms(context.contextPath)))
              else s1;
        assert s1 == ContextStage(s, entry, ev, env);
      }
    }

    /** The channel-restriction stage of one iteration; `admitted` is whether the asset may answer here. */
    method ApplyGate(idx: nat, ev: MessageEvent, env: Env, ghost s: Scan,
                     tokens: seq<string>, channel: string, matches: seq<nat>, ghost base: seq<string>)
      returns (channel': string, err: Option<string>, admitted: bool)
      requires idx < |assets| && s.error.None?
      requires Mirrors(s, tokens, channel, matches, base)
      modifies this`channelIDMap, this`conversationInfoCalls
      ensures var t := GateStage(s, assets[idx], ev, env);
              err == t.error && Mirrors(t, tokens, channel', matches, base) &&
              (err.None? ==> admitted == Admitted(t, assets[idx]))
    {
      var entry := assets[idx];
      channel', err, admitted := channel, None, true;
      if |entry.requireInChannel| > 0 {
        channel', err := ResolveChannelName(channel, ev, env, s, tokens, matches, base);
        if err.Some? {
          return;
        }
        admitted := InChannelList(channel', entry.requireInChannel);
      }
    }

    /** The evaluation stage of one iteration: evaluate the tree, write it back, record a match. */
    method EvaluateAsset(idx: nat, env: Env, ghost s: Scan,
                         tokens: seq<string>, channel: string, matches: seq<nat>, ghost base: seq<string>)
      returns (matches': seq<nat>)
      requires idx < |assets|
      requires Mirrors(s, tokens, channel, matches, base)
      modifies this`assets, this`depth
      ensures depth == old(depth)
      ensures Mirrors(EvaluateStage(s, idx, old(assets)[idx], env), tokens, channel, matches', base)
    {
      var entry := assets[idx];
      var ok, written := IsTokenMatch(entry.on, env.normalize(tokens));
      assets := assets[idx := entry.(on := written)];
      matches' := if ok then matches + [idx] else matches;
    }

    /**
     * The selection loop of `defaultKnowledgeHandler`: every asset not
     * skipped is evaluated (and written back) against the tokens, including
     * the context tokens injected so far; the reply comes from the first match.
     */
    method DefaultKnowledgeHandler(args: seq<string>, ev: MessageEvent, env: Env) returns (r: Result<seq<MsgOption>>)
      modifies this
      ensures depth == old(depth)
      ensures var s := ScanUpTo(old(assets), |old(assets)|, ev, args, old(channelIDMap), env);
              (forall i :: 0 <= i < |s.matches| ==> s.matches[i] < |old(assets)|) &&
              assets == s.assets && channelIDMap == s.cache &&
              conversationInfoCalls == old(conversationInfoCalls) + s.fetches &&
              r == HandlerResult(old(assets), s)
    {
      var orig := assets;
      var cache0 := channelIDMap;
      ghost var calls0 := conversationInfoCalls;
      var channel := "";
      var matches: seq<nat> := [];
      var tokens := args;
      var idx := 0;
      ghost var s := ScanUpTo(orig, 0, ev, args, cache0, env);
      while idx < |orig|
        invariant 0 <= idx <= |orig|
        invariant depth == old(depth)
        invariant s == ScanUpTo(orig, idx, ev, args, cache0, env)
        invariant s.error.None?
        invariant Mirrors(s, tokens, channel, matches, calls0)
      {
        assert assets[idx] == orig[idx];
        ghost var t := ScanStep(s, idx, orig[idx], ev, env);
        ScanAdvance(orig, idx, ev, args, cache0, env, t);
        var err;
        tokens, channel, matches, err := ConsiderAsset(idx, ev, env, s, tokens, channel, matches, calls0);
        if err.Some? {
          r := Err(err.value);
          ScanStopsAtError(orig, idx + 1, |orig|, ev, args, cache0, env);
          return;
        }
        s := t;
        idx := idx + 1;
      }
      r := if |matches| > 0 then Ok(AssetReply(orig[matches[0]])) else Ok([]);
    }
  }

  lemma TermTokensSnoc(terms: seq<TokenMatch>, j: nat)
    requires j < |terms|
    ensures TermTokens(terms[..j + 1]) == TermTokens(terms[..j]) + terms[j].tokens
  {
    TermTokensAppend(terms[..j], [terms[j]]);
    assert terms[..j + 1] == terms[..j] + [terms[j]];
  }

  lemma {:induction false} TermTokensAppend(a: seq<TokenMatch>, b: seq<TokenMatch>)
    ensures TermTokens(a + b) == TermTokens(a) + TermTokens(b)
  {
    if a == [] {
      assert a + b == b;
    } else {
      assert (a + b)[1..] == a[1..] + b;
      TermTokensAppend(a[1..], b);
    }
  }

  /** Once the loop has stopped at an error, later assets change nothing. */
  lemma {:induction false} ScanStopsAtError(orig: seq<KnowledgeAsset>, m: nat, n: nat, ev: MessageEvent,
                                            args: seq<string>, cache: map<string, string>, env: Env)
    requires m <= n <= |orig|
    requires ScanUpTo(orig, m, ev, args, cache, env).error.Some?
    ensures ScanUpTo(orig, n, ev, args, cache, env) == ScanUpTo(orig, m, ev, args, cache, env)
    decreases n - m
  {
    if m < n {
      ScanStopsAtError(orig, m, n - 1, ev, args, cache, env);
      ScanUnfold(orig, n, ev, args, cache, env);
    }
  }

  // ---------------------------------------------------------------------
  // Properties of the selection loop
  // ---------------------------------------------------------------------

  /**
   * What the loop knows about the channel after any prefix: either it has
   * not looked the channel up yet, or it did so exactly once, with the
   * outcome of one `getChannelName` call on the initial cache.
   */
  ghost predicate ChannelState(s: Scan, cache: map<string, string>, ev: MessageEvent, env: Env)
  {
    var l := ChannelLookup(cache, ev.channel, env.slack);
    var trace := if l.fetched then [ev.channel] else [];
    match s.error
    case Some(e) =>
      l.result.Err? && e == ChannelNameError + l.result.error &&
      s.cache == l.cache && s.fetches == trace
    case None =>
      (s.channel == "" && s.cache == cache && s.fetches == []) ||
      (l.result == Ok(s.channel) && s.cache == l.cache && s.fetches == trace)
  }

  lemma ResolveKeepsChannelState(s: Scan, cache: map<string, string>, ev: MessageEvent, env: Env)
    requires s.error.None? && ChannelState(s, cache, ev, env)
    ensures ChannelState(ResolveChannel(s, ev, env), cache, ev, env)
    ensures var t := ResolveChannel(s, ev, env);
            t.error.None? ==> ChannelLookup(cache, ev.channel, env.slack).result == Ok(t.channel)
    ensures ResolveChannel(s, ev, env).args == s.args
    ensures ResolveChannel(s, ev, env).matches == s.matches
  {
    var l := ChannelLookup(cache, ev.channel, env.slack);
    if s.channel == "" && !(s.cache == cache && s.fetches == []) {
      assert l.result == Ok("") && s.cache == l.cache;
      assert ev.channel in l.cache && l.cache[ev.channel] == "";
      assert ChannelLookup(s.cache, ev.channel, env.slack) == Lookup(Ok(""), s.cache, false);
    }
  }

  lemma ContextKeepsChannelState(s: Scan, a: KnowledgeAsset, cache: map<string, string>, ev: MessageEvent, env: Env)
    requires s.error.None? && ChannelState(s, cache, ev, env)
    ensures ChannelState(ContextStage(s, a, ev, env), cache, ev, env)
  {
    if a.channelContext.Some? {
      ResolveKeepsChannelState(s, cache, ev, env);
    }
  }

  lemma GateKeepsChannelState(s: Scan, a: KnowledgeAsset, cache: map<string, string>, ev: MessageEvent, env: Env)
    requires s.error.None? && ChannelState(s, cache, ev, env)
    ensures ChannelState(GateStage(s, a, ev, env), cache, ev, env)
    ensures var t := GateStage(s, a, ev, env);
            |a.requireInChannel| > 0 && t.error.None? ==> ChannelLookup(cache, ev.channel, env.slack).result == Ok(t.channel)
  {
    if |a.requireInChannel| > 0 {
      ResolveKeepsChannelState(s, cache, ev, env);
    }
  }

  lemma StepKeepsChannelState(s: Scan, idx: nat, a: KnowledgeAsset, cache: map<string, string>,
                              ev: MessageEvent, env: Env)
    requires idx < |s.assets| && s.error.None? && ChannelState(s, cache, ev, env)
    ensures ChannelState(ScanStep(s, idx, a, ev, env), cache, ev, env)
  {
    if !SkipsThread(a, ev) {
      ContextKeepsChannelState(s, a, cache, ev, env);
      var s1 := ContextStage(s, a, ev, env);
      if s1.error.None? {
        GateKeepsChannelState(s1, a, cache, ev, env);
      }
    }
  }

  lemma {:induction false} ScanChannelState(orig: seq<KnowledgeAsset>, n: nat, ev: MessageEvent, args: seq<string>,
                                            cache: map<string, string>, env: Env)
    requires n <= |orig|
    ensures ChannelState(ScanUpTo(orig, n, ev, args, cache, env), cache, ev, env)
  {
    if n > 0 {
      ScanChannelState(orig, n - 1, ev, args, cache, env);
      ScanUnfoldKeepsChannelState(orig, n, ev, args, cache, env);
    }
  }

  lemma ScanUnfoldKeepsChannelState(orig: seq<KnowledgeAsset>, n: nat, ev: MessageEvent, args: seq<string>,
                                    cache: map<string, string>, env: Env)
    requires 0 < n <= |orig|
    requires ChannelState(ScanUpTo(orig, n - 1, ev, args, cache, env), cache, ev, env)
    ensures ChannelState(ScanUpTo(orig, n, ev, args, cache, env), cache, ev, env)
  {
    ScanUnfold(orig, n, ev, args, cache, env);
    var s := ScanUpTo(orig, n - 1, ev, args, cache, env);
    if s.error.None? {
      StepKeepsChannelState(s, n - 1, orig[n - 1], cache, ev, env);
    } else {
      assert ScanUpTo(orig, n, ev, args, cache, env) == s;
    }
  }

  /** However many assets consult the channel, Slack is asked for its name at most once per message. */
  lemma AtMostOneConversationInfoCall(orig: seq<KnowledgeAsset>, ev: MessageEvent, args: seq<string>,
                                      cache: map<string, string>, env: Env)
    ensures var s := ScanUpTo(orig, |orig|, ev, args, cache, env);
            |s.fetches| <= 1 && (ev.channel in cache ==> s.fetches == [])
  {
    ScanChannelState(orig, |orig|, ev, args, cache, env);
  }

  /** The only error the handler reports is a failed channel-name lookup, with its message. */
  lemma HandlerErrorIsLookupFailure(orig: seq<KnowledgeAsset>, ev: MessageEvent, args: seq<string>,
                                    cache: map<string, string>, env: Env)
    ensures var s := ScanUpTo(orig, |orig|, ev, args, cache, env);
            var l := ChannelLookup(cache, ev.channel, env.slack);
            HandlerResult(orig, s).Err? ==>
              l.result.Err? && HandlerResult(orig, s).error == ChannelNameError + l.result.error
  {
    ScanChannelState(orig, |orig|, ev, args, cache, env);
  }

  /**
   * Tokens only grow: what an earlier asset injected from its channel
   * context is still there for every later asset.
   */
  lemma {:induction false} ArgsOnlyGrow(orig: seq<KnowledgeAsset>, m: nat, n: nat, ev: MessageEvent, args: seq<string>,
                                        cache: map<string, string>, env: Env)
    requires m <= n <= |orig|
    ensures var big := ScanUpTo(orig, n, ev, args, cache, env).args;
            var small := ScanUpTo(orig, m, ev, args, cache, env).args;
            |small| <= |big| && big[..|small|] == small
    decreases n - m
  {
    if m < n {
      ArgsOnlyGrow(orig, m, n - 1, ev, args, cache, env);
      ScanUnfold(orig, n, ev, args, cache, env);
      var small := ScanUpTo(orig, m, ev, args, cache, env).args;
      var mid := ScanUpTo(orig, n - 1, ev, args, cache, env).args;
      var big := ScanUpTo(orig, n, ev, args, cache, env).args;
      assert big[..|mid|] == mid;
      assert big[..|small|] == big[..|mid|][..|small|];
    }
  }

  /** The matches found after `m` assets are the start of those found after `n`; the rest are later indices. */
  lemma {:induction false} MatchesExtend(orig: seq<KnowledgeAsset>, m: nat, n: nat, ev: MessageEvent, args: seq<string>,
                                         cache: map<string, string>, env: Env)
    requires m <= n <= |orig|
    ensures var big := ScanUpTo(orig, n, ev, args, cache, env).matches;
            var small := ScanUpTo(orig, m, ev, args, cache, env).matches;
            |small| <= |big| && big[..|small|] == small &&
            forall i :: |small| <= i < |big| ==> m <= big[i]
    decreases n - m
  {
    if m < n {
      MatchesExtend(orig, m, n - 1, ev, args, cache, env);
      MatchesStep(orig, n, ev, args, cache, env);
      ExtendByOne(ScanUpTo(orig, m, ev, args, cache, env).matches, ScanUpTo(orig, n - 1, ev, args, cache, env).matches,
                  ScanUpTo(orig, n, ev, args, cache, env).matches, m, n - 1);
    }
  }

  /** One iteration records its own index or nothing. */
  lemma MatchesStep(orig: seq<KnowledgeAsset>, n: nat, ev: MessageEvent, args: seq<string>,
                    cache: map<string, string>, env: Env)
    requires 0 < n <= |orig|
    ensures var s := ScanUpTo(orig, n - 1, ev, args, cache, env).matches;
            var t := ScanUpTo(orig, n, ev, args, cache, env).matches;
            t == s || t == s + [n - 1]
  {
    ScanUnfold(orig, n, ev, args, cache, env);
  }

  /** The list arithmetic behind `MatchesExtend`: a prefix stays a prefix when one index no lower than `m` is appended. */
  lemma ExtendByOne(small: seq<nat>, mid: seq<nat>, big: seq<nat>, m: nat, x: nat)
    requires |small| <= |mid| && mid[..|small|] == small && forall i :: |small| <= i < |mid| ==> m <= mid[i]
    requires big == mid || big == mid + [x]
    requires m <= x
    ensures |small| <= |big| && big[..|small|] == small && forall i :: |small| <= i < |big| ==> m <= big[i]
  {
    if big == mid + [x] {
      assert big[..|small|] == mid[..|small|];
      forall i | |small| <= i < |big|
        ensures m <= big[i]
      {
        if i < |mid| {
          assert big[i] == mid[i];
        }
      }
    }
  }

  /** Appending an index above all others keeps a list increasing. */
  lemma SnocIncreasing(s: seq<nat>, x: nat)
    requires forall i, j :: 0 <= i < j < |s| ==> s[i] < s[j]
    requires forall i :: 0 <= i < |s| ==> s[i] < x
    ensures forall i, j :: 0 <= i < j < |s + [x]| ==> (s + [x])[i] < (s + [x])[j]
  {
    forall i, j | 0 <= i < j < |s + [x]|
      ensures (s + [x])[i] < (s + [x])[j]
    {
      assert (s + [x])[i] == s[i];
    }
  }

  /** Matches are recorded in increasing index order, so the first is the lowest-index match. */
  lemma {:induction false} MatchesIncreasing(orig: seq<KnowledgeAsset>, n: nat, ev: MessageEvent, args: seq<string>,
                                             cache: map<string, string>, env: Env)
    requires n <= |orig|
    ensures var ms := ScanUpTo(orig, n, ev, args, cache, env).matches;
            forall i, j :: 0 <= i < j < |ms| ==> ms[i] < ms[j]
  {
    if n > 0 {
      MatchesIncreasing(orig, n - 1, ev, args, cache, env);
      MatchesStep(orig, n, ev, args, cache, env);
      var s := ScanUpTo(orig, n - 1, ev, args, cache, env);
      var ms := ScanUpTo(orig, n, ev, args, cache, env).matches;
      if ms != s.matches {
        SnocIncreasing(s.matches, n - 1);
      }
    }
  }

  /**
   * Whether an asset is selected for a message: it does not skip the
   * message's thread, the message's channel (as one lookup resolves it) is
   * on its channel list when it has one, and its tree holds for `args`.
   */
  ghost predicate Selected(a: KnowledgeAsset, ev: MessageEvent, env: Env, cache: map<string, string>, args: seq<string>)
  {
    !SkipsThread(a, ev) &&
    (|a.requireInChannel| > 0 ==>
       var res := ChannelLookup(cache, ev.channel, env.slack).result;
       res.Ok? && res.value in a.requireInChannel) &&
    Eval(a.on, env.normalize(args))
  }

  /** Asset `k` is selected with the tokens as they stand once it has been considered. */
  ghost predicate SelectedAt(orig: seq<KnowledgeAsset>, k: nat, ev: MessageEvent, args: seq<string>,
                             cache: map<string, string>, env: Env)
    requires k < |orig|
  {
    Selected(orig[k], ev, env, cache, ScanUpTo(orig, k + 1, ev, args, cache, env).args)
  }

  lemma StepSelects(s: Scan, idx: nat, a: KnowledgeAsset, cache: map<string, string>, ev: MessageEvent, env: Env)
    requires idx < |s.assets| && s.error.None? && ChannelState(s, cache, ev, env)
    requires ScanStep(s, idx, a, ev, env).error.None?
    ensures var t := ScanStep(s, idx, a, ev, env);
            t.matches == s.matches + [idx] <==> Selected(a, ev, env, cache, t.args)
  {
    if !SkipsThread(a, ev) {
      ContextKeepsChannelState(s, a, cache, ev, env);
      var s1 := ContextStage(s, a, ev, env);
      GateKeepsChannelState(s1, a, cache, ev, env);
    }
  }

  /** Once the loop has stopped at an error, later assets change nothing. */
  lemma ErrorPersists(orig: seq<KnowledgeAsset>, m: nat, n: nat, ev: MessageEvent,
                      args: seq<string>, cache: map<string, string>, env: Env)
    requires m <= n <= |orig|
    requires ScanUpTo(orig, n, ev, args, cache, env).error.None?
    ensures ScanUpTo(orig, m, ev, args, cache, env).error.None?
  {
    if ScanUpTo(orig, m, ev, args, cache, env).error.Some? {
      ScanStopsAtError(orig, m, n, ev, args, cache, env);
    }
  }

  /** Asset `k` is among the final matches exactly when its own iteration recorded it. */
  lemma MatchedAtOwnStep(orig: seq<KnowledgeAsset>, n: nat, k: nat, ev: MessageEvent, args: seq<string>,
                         cache: map<string, string>, env: Env)
    requires k < n <= |orig|
    ensures var s := ScanUpTo(orig, k, ev, args, cache, env);
            var t := ScanUpTo(orig, k + 1, ev, args, cache, env);
            k in ScanUpTo(orig, n, ev, args, cache, env).matches <==> t.matches == s.matches + [k]
  {
    var s := ScanUpTo(orig, k, ev, args, cache, env);
    var t := ScanUpTo(orig, k + 1, ev, args, cache, env);
    MatchesExtend(orig, k + 1, n, ev, args, cache, env);
    ScanUnfold(orig, k + 1, ev, args, cache, env);
    assert t.matches == s.matches || t.matches == s.matches + [k];
    OwnStepMembership(s.matches, t.matches, ScanUpTo(orig, n, ev, args, cache, env).matches, k);
  }

  /**
   * The list arithmetic behind `MatchedAtOwnStep`: `k` is in a list that
   * extends `t` by indices above `k` exactly when `t` is `s` (all below
   * `k`) with `k` appended.
   */
  lemma OwnStepMembership(s: seq<nat>, t: seq<nat>, big: seq<nat>, k: nat)
    requires forall i :: 0 <= i < |s| ==> s[i] < k
    requires t == s || t == s + [k]
    requires |t| <= |big| && big[..|t|] == t && forall i :: |t| <= i < |big| ==> k + 1 <= big[i]
    ensures k in big <==> t == s + [k]
  {
    if t == s + [k] {
      assert big[|s|] == t[|s|];
    } else {
      forall i | 0 <= i < |big|
        ensures big[i] != k
      {
        if i < |t| {
          assert big[i] == t[i];
        }
      }
    }
  }

  /**
   * An asset is among the matches exactly when it is selected: the thread,
   * channel and token conditions all hold for it.
   */
  lemma MatchesAreSelected(orig: seq<KnowledgeAsset>, n: nat, k: nat, ev: MessageEvent, args: seq<string>,
                           cache: map<string, string>, env: Env)
    requires k < n <= |orig|
    requires ScanUpTo(orig, n, ev, args, cache, env).error.None?
    ensures k in ScanUpTo(orig, n, ev, args, cache, env).matches <==> SelectedAt(orig, k, ev, args, cache, env)
  {
    ErrorPersists(orig, k + 1, n, ev, args, cache, env);
    StepSelectsAt(orig, k, ev, args, cache, env);
    MatchedAtOwnStep(orig, n, k, ev, args, cache, env);
  }

  /** Asset `k`'s own iteration records it exactly when it is selected. */
  lemma StepSelectsAt(orig: seq<KnowledgeAsset>, k: nat, ev: MessageEvent, args: seq<string>,
                      cache: map<string, string>, env: Env)
    requires k < |orig|
    requires ScanUpTo(orig, k + 1, ev, args, cache, env).error.None?
    ensures var s := ScanUpTo(orig, k, ev, args, cache, env);
            var t := ScanUpTo(orig, k + 1, ev, args, cache, env);
            t.matches == s.matches + [k] <==> SelectedAt(orig, k, ev, args, cache, env)
  {
    ErrorPersists(orig, k, k + 1, ev, args, cache, env);
    var s := ScanUpTo(orig, k, ev, args, cache, env);
    ScanChannelState(orig, k, ev, args, cache, env);
    ScanUnfold(orig, k + 1, ev, args, cache, env);
    StepSelects(s, k, orig[k], cache, ev, env);
  }

  /** The reply comes from the lowest-index selected asset, and is empty when none is selected. */
  lemma FirstSelectedAnswers(orig: seq<KnowledgeAsset>, ev: MessageEvent, args: seq<string>,
                             cache: map<string, string>, env: Env)
    requires ScanUpTo(orig, |orig|, ev, args, cache, env).error.None?
    ensures var r := HandlerResult(orig, ScanUpTo(orig, |orig|, ev, args, cache, env));
            ((forall k :: 0 <= k < |orig| ==> !SelectedAt(orig, k, ev, args, cache, env)) ==> r == Ok([])) &&
            ((exists k :: 0 <= k < |orig| && SelectedAt(orig, k, ev, args, cache, env)) ==>
               exists k :: 0 <= k < |orig| && SelectedAt(orig, k, ev, args, cache, env) &&
                 (forall j :: 0 <= j < k ==> !SelectedAt(orig, j, ev, args, cache, env)) &&
                 r == Ok(AssetReply(orig[k])))
  {
    var s := ScanUpTo(orig, |orig|, ev, args, cache, env);
    forall k | 0 <= k < |orig|
      ensures k in s.matches <==> SelectedAt(orig, k, ev, args, cache, env)
    {
      MatchesAreSelected(orig, |orig|, k, ev, args, cache, env);
    }
    MatchesIncreasing(orig, |orig|, ev, args, cache, env);
    if |s.matches| > 0 {
      var k := s.matches[0];
      assert k in s.matches && SelectedAt(orig, k, ev, args, cache, env);
      forall j | 0 <= j < k
        ensures !SelectedAt(orig, j, ev, args, cache, env)
      {
        assert j !in s.matches;
      }
    }
  }

  /**
   * Each asset's tree is written back at most once, at its own step, with
   * the tokens it was evaluated against; later assets leave it alone.
   */
  lemma {:induction false} WrittenBackOnce(orig: seq<KnowledgeAsset>, n: nat, k: nat, ev: MessageEvent, args: seq<string>,
                                           cache: map<string, string>, env: Env)
    requires k < n <= |orig|
    ensures var a := ScanUpTo(orig, n, ev, args, cache, env).assets[k];
            var tokens := env.normalize(ScanUpTo(orig, k + 1, ev, args, cache, env).args);
            a == orig[k] || a == orig[k].(on := Evaluated(orig[k].on, tokens))
  {
    ScanUnfold(orig, n, ev, args, cache, env);
    if n > k + 1 {
      WrittenBackOnce(orig, n - 1, k, ev, args, cache, env);
    } else {
      var s := ScanUpTo(orig, k, ev, args, cache, env);
      assert s.assets[k] == orig[k];
      if s.error.None? && !SkipsThread(orig[k], ev) {
        var s1 := ContextStage(s, orig[k], ev, env);
        var s2 := GateStage(s1, orig[k], ev, env);
        assert s2.assets[k] == orig[k];
      }
    }
  }
}
