# splat-bot decision core in Dafny

This project models the decision logic of the splat-bot Slack bot. It covers three Go files.

- **Knowledge matching** (`pkg/knowledge/knowledge.go`). A knowledge asset carries a
  `TokenMatch` condition tree: an AND/OR tree over literal tokens and child terms, where a
  node may instead hold a compiled expression. `isTokenMatch` evaluates that tree against a
  message's token set, writes each visited node's `Satisfied` flag back into the tree, and
  bumps a package-level `depth` counter. `DumpMatchTree` renders the tree as indented trace
  lines. `containsAny` and `containsAll` are the two predicates registered with the
  expression engine. `getChannelName` memoises channel names. `defaultKnowledgeHandler`
  walks the loaded assets in order and answers from the first one that matches. Along the
  way it skips unwatched threads, applies channel restrictions and injects channel-context
  tokens.
- **Command dispatch** (`pkg/commands/command.go`). This is the append-only registry of
  command descriptors (`AddCommand`, `getAttributes`) and the `SLACK_ALLOWED_USERS`
  allow-list. `tokenize` has two modes: a single-space split and a scanner that keeps
  quoted phrases together. `checkForCommand` tests the command prefix. `Handler` walks the
  registry for one Slack event, checks mention, permission, thread and argument count, and
  posts the first non-empty reply where the descriptor's routing flags send it.
- **GitHub App authorisation** (`pkg/github/roundtripper.go`). The round-tripper maps each
  base URL's host to its path prefix and canonicalises request paths with that map. It
  chooses app (JWT) authorisation or installation-token authorisation, sets the
  token-budget and token-expiry headers, and keeps three caches: the app slug, the
  installations by organisation, and the installation tokens, which are reused until one
  minute before they expire.

Modelling choices:

- **Oracles.** Everything outside the core becomes a function parameter or a field of an
  oracle datatype (`Env`, `SlackOracle`, `Platform`, `GitHubClient`, `Runtime`). This covers
  Slack (`GetConversationInfo`, `OpenConversation`; `PostMessage` becomes the `Posted`
  outcome), the token normaliser, `GetPathContextTerms`, `ContainsBotMention`,
  `GetThreadUrl`, the compiled expression program, GitHub's three endpoints, the clock,
  JWT signing and RFC 3339 formatting.
- **Time** is an integer number of seconds.
- **GitHub's answers** are indexed by the number of calls made so far, so they may change
  between calls. A call log records every call, which makes the "no call on a cache hit"
  properties statable.
- **Imperative code stays imperative.** The package state of `knowledge.go` is the class
  `KnowledgeBase`, the registry is the class `Registry`, and the round-tripper is the class
  `AppsRoundTripper`. Each method is proved equal to a pure specification function
  (`Eval`/`Evaluated`, `ScanUpTo`, `Walk`, `InstallationLookup`, `TokenLookup`,
  `SlugLookup`, ...), and the properties are lemmas about those functions.
- **Write-back.** `TokenMatch` is a value. `isTokenMatch`'s write-back through
  `*TokenMatch` is modelled by returning the updated tree (`Evaluated`), which the caller
  stores back into `knowledgeAssets[idx]`.

Where the code and the written design disagree, the model follows the code:

- `Handler` calls `checkForCommand` directly. It never calls the descriptor's
  `MessageOfInterest` predicate.
- `checkForCommand` has no bounds check. A descriptor reached with fewer arguments than
  command words, all agreeing with them, panics, and so does `Handler` (the `Crash` step
  and the `Panicked` outcome). The dispatcher model keeps that panic; see "## Findings".
- A callback error that comes with an empty reply moves on to the next descriptor. It is
  not terminal.
- `MaxArgs` is never consulted. Any positive `RequiredArgs` also bounds the count from
  above.
- A permission failure ends handling with an error, before the `MustBeInThread` check.
- Only the exact, lower-case `Type` "or" selects OR. Any other `Type` is AND.
- `DumpMatchTree` prints "OR" for an empty `Type`, although evaluation treats an empty
  `Type` as AND.

## Model

| member | source | states |
|---|---|---|
| `MatchTree.ExpressionWins` | pkg/knowledge/knowledge.go:100-108 | an expression node's value is its program's boolean, a run error counts as false, its tokens/terms/type are never read, and its tree is not written |
| `MatchTree.AndNode` | pkg/knowledge/knowledge.go:112-142 | a node whose `Type` is not exactly "or" is true iff all its tokens are present and all its terms are true; empty tokens or terms count as satisfied |
| `MatchTree.OrNode` | pkg/knowledge/knowledge.go:113-140 | an "or" node is true iff (no tokens or some token present) and (no terms or some term true) |
| `MatchTree.EmptyNodeHolds` | pkg/knowledge/knowledge.go:112-126 | a node with no tokens, no terms and no expression is satisfied by every token set |
| `MatchTree.WriteBack` | pkg/knowledge/knowledge.go:126-146 | the node's flag becomes the result; terms are untouched when the token test fails; under OR the terms after the first true one are untouched; under AND every term is written |
| `MatchTree.EvaluatedKeepsShape` | pkg/knowledge/knowledge.go:99-148 | evaluation changes nothing in the tree but `Satisfied` flags |
| `MatchTree.EvalIgnoresFlags` | pkg/knowledge/knowledge.go:99-148 | the result does not depend on the flags left by an earlier evaluation |
| `MatchTree.EvaluatedIdempotent` | pkg/knowledge/knowledge.go:99-148 | re-evaluating a written-back tree gives the same result and writes nothing new |
| `Knowledge.KnowledgeBase.IsTokenMatch` | pkg/knowledge/knowledge.go:99-148 | the imperative evaluator returns `Eval` and the written-back tree `Evaluated`, sets a non-expression node's flag to its result, and restores `depth` |
| `Knowledge.KnowledgeBase.MatchTerms` | pkg/knowledge/knowledge.go:126-142 | the term loop with its `satisfied` counter and OR break yields the node's value and exactly the written-back terms |
| `Knowledge.ContainsAny` | pkg/knowledge/knowledge.go:307-318 | true iff some listed token is a key of the map, so false for an empty list |
| `Knowledge.ContainsAll` | pkg/knowledge/knowledge.go:319-330 | true iff the list is non-empty and every listed token is a key |
| `Knowledge.DumpMatchTree` | pkg/knowledge/knowledge.go:39-63 | appends the tree's trace to the incoming messages; the root sits at depth 0 for a nil depth; the shared depth cell is restored |
| `Knowledge.DumpChildren` | pkg/knowledge/knowledge.go:55-60 | the loop over the terms appends each term's trace one level deeper, in order |
| `Knowledge.DumpLineCount` | pkg/knowledge/knowledge.go:53-59 | the trace has two lines per node plus one per node that has terms |
| `Knowledge.DumpPadding` | pkg/knowledge/knowledge.go:48-53 | every line of a subtree at depth d starts with d spaces; the first line shows the flag and the type, "OR" when `Type` is empty |
| `Knowledge.IsStringMatchOfWords` | pkg/knowledge/knowledge.go:72-95 | matching a space-joined text is matching the words it was joined from |
| `Knowledge.IsMatchIgnoresFlags` | pkg/knowledge/knowledge.go:72-82 | whether an asset matches does not depend on flags written by an earlier evaluation |
| `Knowledge.ChannelLookupMemoises` | pkg/knowledge/knowledge.go:154-173 | after a successful lookup the id is cached, and asking again gives the same name without a Slack call |
| `Knowledge.KnowledgeBase.GetChannelName` | pkg/knowledge/knowledge.go:154-173 | fails without a client, answers a cached id from the cache, otherwise asks Slack once and caches only a successful name |
| `Knowledge.ContextTokens` | pkg/knowledge/knowledge.go:191-200 | appends the context terms' tokens exactly when the channel is one of the context's channels |
| `Knowledge.InChannelList` | pkg/knowledge/knowledge.go:209-218 | the scan with early break finds the channel iff it is on the list |
| `Knowledge.KnowledgeBase.DefaultKnowledgeHandler` | pkg/knowledge/knowledge.go:175-243 | the loop's assets, cache, Slack calls and reply are those of the specification scan `ScanUpTo`, and `depth` is restored |
| `Knowledge.ScanStep` | pkg/knowledge/knowledge.go:180-222 | one iteration writes back at most its own asset, records its own index or nothing, and only extends the tokens |
| `Knowledge.ArgsOnlyGrow` | pkg/knowledge/knowledge.go:194-197 | injected context tokens persist for every later asset |
| `Knowledge.MatchesAreSelected` | pkg/knowledge/knowledge.go:180-222 | an asset is recorded as a match iff it watches the thread or the message is top-level, its channel restriction admits the channel, and its tree holds for the tokens at its step |
| `Knowledge.FirstSelectedAnswers` | pkg/knowledge/knowledge.go:225-242 | the reply is built from the lowest-index selected asset, and is empty when none is selected |
| `Knowledge.MatchesIncreasing` | pkg/knowledge/knowledge.go:220-222 | matches are recorded in increasing index order |
| `Knowledge.AtMostOneConversationInfoCall` | pkg/knowledge/knowledge.go:184-208 | Slack is asked for the channel name at most once per message, and never for a cached id |
| `Knowledge.HandlerErrorIsLookupFailure` | pkg/knowledge/knowledge.go:186-207 | the handler's only error is a failed channel-name lookup, with its message |
| `Knowledge.WrittenBackOnce` | pkg/knowledge/knowledge.go:220 | each asset's tree is left alone or written back once, with the tokens of its own step |
| `Commands.Registry.AddCommand` | pkg/commands/command.go:27-37 | appends exactly one descriptor; its `MessageOfInterest` is the supplied test, or the command-prefix test when none is given |
| `Commands.Registry.GetAttributes` | pkg/commands/command.go:39-47 | returns a copy equal to the registry element by element |
| `Commands.Registry.Initialize` | pkg/commands/command.go:49-72 | registers the built-in descriptors in order and adds the comma-separated users of `SLACK_ALLOWED_USERS` when it is set |
| `Commands.IsAllowedUser` | pkg/commands/command.go:74-80 | an error exactly when the allow-list is non-empty and the sender is not on it |
| `Commands.AllowListEnforcement` | pkg/commands/command.go:62-80 | with `SLACK_ALLOWED_USERS` unset every user passes; otherwise exactly the listed users pass |
| `Commands.AllowListExample` | pkg/commands/command.go:66-69 | "U01,U02" allows exactly U01 and U02 |
| `Commands.Tokenize` | pkg/commands/command.go:81-99 | the token loop yields the quote-globbing tokens, or the single-space split |
| `Strings.SplitCount` | pkg/commands/command.go:96-97 | the single-space split has one more token than the text has spaces, empty tokens included |
| `Strings.JoinSplit` | pkg/commands/command.go:96-97 | joining the split tokens with a space gives the text back |
| `Strings.SplitJoin` | pkg/knowledge/knowledge.go:93 | splitting a join of separator-free words gives the words back |
| `Commands.FindMatches` | pkg/commands/command.go:84-85 | the scanner's quoted groups hold no quote, and each match fills one group only |
| `Commands.GlobRoundTrip` | pkg/commands/command.go:84-95 | typed arguments come back as tokens: a quoted phrase is one token without its quotes, and a bare word is itself |
| `Commands.GlobWords` | pkg/commands/command.go:84-95 | plain words separated by single spaces tokenise to themselves |
| `CommandExamples.GlobExample` | pkg/commands/command.go:84-95 | `jira create "<title>" extra` tokenises to jira, create, the title, extra |
| `Commands.CheckForCommand` | pkg/commands/command.go:213-222 | as written: the verdict of the index loop, or an index past the end of `args` when `args` is a proper prefix of the command words |
| `Commands.CheckForCommandPanicsOnPrefix` | pkg/commands/command.go:213-222 | the out-of-range outcome happens exactly for a proper prefix; `["jira"]` against jira/unsized indexes position 1 |
| `Commands.CheckForCommandBounded` | pkg/commands/command.go:213-222 | with the bounds check: true iff `args[i] == Commands[i]` for every i below the number of command words; vacuously true for none |
| `Commands.GetDMChannelID` | pkg/commands/command.go:101-111 | succeeds exactly when Slack opens the conversation, with its channel |
| `Commands.RouteReply` | pkg/commands/command.go:187-200 | picks the channel and thread anchor as `Route` does |
| `Commands.RoutingOrder` | pkg/commands/command.go:189-199 | a DM goes to the opened channel ("" on failure); otherwise `!RespondInChannel` anchors to the message, a threaded message anchors to its thread, and anything else has no anchor |
| `Commands.ConsiderDescriptor` | pkg/commands/command.go:147-186 | one loop body: mention gating, tokenising with the mention token dropped, a crash on an empty token list, the prefix test as written (a crash on a proper prefix of the command words), then the checks |
| `Commands.Handler` | pkg/commands/command.go:113-211 | the outcome and the callbacks run are those of `Handle` on the registry, including the panic of the unguarded prefix test |
| `Commands.WalkRegistry` | pkg/commands/command.go:146-210 | the loop over the registry ends where the specification walk ends: at the first reply, error or panic |
| `Commands.JudgeCrashesOnPrefix` | pkg/commands/command.go:157-172 | the loop body panics iff the arguments are a proper prefix of the command words; elsewhere it agrees with the bounded test, which skips that descriptor |
| `CommandExamples.PrefixMentionPanics` | pkg/commands/command.go:50-54 | with jira/create registered before jira/unsized, the app mention alone or the mention and "jira" ends in a panic, with no callback run |
| `Commands.IgnoredEvents` | pkg/commands/command.go:116-144 | other event types and bot messages get no reply; an unknown inner event is an error |
| `Commands.MentionRequiresAppMention` | pkg/commands/command.go:148-150 | a mention-only descriptor is skipped unless the text mentions the bot and the event is an app mention |
| `Commands.PermissionBeforeThread` | pkg/commands/command.go:160-172 | a sender off a non-empty allow-list gets the error whatever the thread requirement |
| `Commands.JudgeReachesArguments` | pkg/commands/command.go:157-186 | once prefix, permission and thread checks pass, only the argument count decides |
| `Commands.ArgumentBounds` | pkg/commands/command.go:173-186 | too few tokens gives the "requires N arguments" reply, more than a positive `RequiredArgs` gives the "wrap in quotes" reply, and otherwise the callback runs and its options are the reply |
| `Commands.MaxArgsNeverConsulted` | pkg/commands/command.go:173-186 | registries that differ only in `MaxArgs` handle every event alike |
| `Commands.FirstDecidingDescriptor` | pkg/commands/command.go:146-208 | the first descriptor that skips no further (an error, a crash or a non-empty reply) decides the outcome |
| `Commands.NoDecidingDescriptor` | pkg/commands/command.go:146-210 | when every descriptor skips or replies empty, nothing is posted |
| `Commands.InvokedAreReached` | pkg/commands/command.go:146-208 | callbacks run in registry order, only for descriptors that every earlier descriptor let through |
| `CommandExamples.UnsizedExample` | pkg/commands/unsized-stories.go:14-35 | "@bot jira unsized" gets the three-argument usage reply; "@bot jira unsized p" reaches the callback with jira, unsized, p |
| `GitHubApps.HostPrefixesLastWins` | pkg/github/roundtripper.go:36-42 | each base URL's host is mapped, to the path of its last URL with that host, and no other host is mapped |
| `GitHubApps.NewAppsRoundTripper` | pkg/github/roundtripper.go:28-45 | succeeds iff every base URL parses, with that host map and empty caches; otherwise it returns the first parse error |
| `GitHubApps.CanonicalizedPath` | pkg/github/roundtripper.go:81-83 | strips the host's mapped prefix when the path has it; an unmapped host or a non-matching prefix leaves the path as it is |
| `GitHubApps.InstallationPathMatches` | pkg/github/roundtripper.go:20 | `/repos/<owner>/<repo>/installation` with non-empty, slash-free names matches the installation pattern |
| `GitHubApps.InstallationPathParts` | pkg/github/roundtripper.go:20 | every path the pattern matches is such a path |
| `GitHubApps.AuthorizeRouting` | pkg/github/roundtripper.go:67-79 | on an `/app…` or installation path the installations and tokens stay unchanged, at most one GitHub call is made and it fetches the app, and a success sends "Bearer " + the signed JWT; on any other path an empty organisation fails with the BUG error and makes no call, and a success sends the organisation's installation token |
| `GitHubApps.AppsRoundTripper.RoundTrip` | pkg/github/roundtripper.go:67-79 | headers and caches are those of the authorisation step, and upstream is called only when that step succeeded |
| `GitHubApps.AppsRoundTripper.AddAppAuth` | pkg/github/roundtripper.go:85-112 | sets the JWT and expiry headers and the budget identifier as `AppAuth` specifies |
| `GitHubApps.AppAuthHeaders` | pkg/github/roundtripper.go:86-110 | the JWT expires now + 9 minutes and is issued by the app id; the budget identifier is the app id on exactly "/app" and the slug elsewhere; "/app" makes no call |
| `GitHubApps.AppsRoundTripper.AddAppInstallationAuth` | pkg/github/roundtripper.go:114-137 | sets the token, expiry and budget headers as `InstallationAuth` specifies |
| `GitHubApps.InstallationAuthHeaders` | pkg/github/roundtripper.go:115-134 | an empty organisation fails at once; on success the budget identifier is "slug - org" and the token and expiry come from the installation token |
| `GitHubApps.AppsRoundTripper.InstallationTokenFor` | pkg/github/roundtripper.go:139-151 | the organisation's installation id, then its token, each error wrapped |
| `GitHubApps.AppsRoundTripper.InstallationIDFor` | pkg/github/roundtripper.go:158-196 | the method's result and caches are those of `InstallationLookup` |
| `GitHubApps.InstallationCache` | pkg/github/roundtripper.go:159-195 | a hit makes no call; a miss makes one listing; a listing equal to the cache reports "not installed" and keeps the cache; a success is the organisation's entry in the cached map |
| `GitHubApps.AppsRoundTripper.IndexByLogin` | pkg/github/roundtripper.go:180-183 | the loop builds the by-login map, where a later installation of the same login wins |
| `GitHubApps.AppsRoundTripper.GetTokenForInstallation` | pkg/github/roundtripper.go:198-227 | the method's result and caches are those of `TokenLookup` |
| `GitHubApps.TokenCache` | pkg/github/roundtripper.go:199-226 | no call iff a cached token expires more than a minute from now; otherwise one call, whose token is stored; a fetch error leaves the cache unchanged; other entries are kept |
| `GitHubApps.AppsRoundTripper.GetSlug` | pkg/github/roundtripper.go:229-243 | the method's result and caches are those of `SlugLookup` |
| `GitHubApps.SlugMemo` | pkg/github/roundtripper.go:229-243 | a cached non-empty slug is returned without `GetApp`; a `GetApp` error leaves the slug empty; a success caches it |
| `GitHubApps.WarmCachesMakeNoCalls` | pkg/github/roundtripper.go:114-243 | with the slug, the installation and a usable token cached, installation auth succeeds and makes no call |
| `GitHubApps.AuthorizeKeepsConsistent` | pkg/github/roundtripper.go:67-243 | every round trip keeps each cached slug, token and installation map justified by a GitHub answer in the call log |

## Findings

| source | as written | input that shows it | evidently intended | confidence | as-written member | corrected member |
|---|---|---|---|---|---|---|
| pkg/commands/command.go:213-222 | `checkForCommand` indexes `args[index]` for every command word without checking the length of `args` | the app mention "@bot" alone gives `args = []`, and the first mention descriptor with command words that the walk reaches reads `args[0]`; "@bot jira" gives `args = ["jira"]`, and jira/create (pkg/commands/create.go:100-102, registered at pkg/commands/command.go:51, before jira/unsized) reads `args[1]` if no earlier descriptor has panicked. Either panic ends the event loop (cmd/slack-bot/slack-bot.go:84 has no recover) | too few tokens means no match | not executed | `Commands.CheckForCommandPanicsOnPrefix` | `Commands.CheckForCommandBounded` |

`Commands.CheckForCommand` models the loop as written: the proper-prefix case is the
`IndexOutOfRange` outcome. The dispatcher model (`Commands.JudgeArguments`, and with it
`Handle` and `Handler`) uses it as written, so that case is a `Crash` step, and
`Commands.PrefixMentionPanics` shows the panic on "@bot jira". `Commands.JudgeBounded` is the
loop body with the corrected test, and `Commands.JudgeCrashesOnPrefix` proves that the two
differ exactly on a proper prefix, where the corrected one skips the descriptor. The other
panic in `Handler`, `args[1:]` on an empty token list when the text mentions the bot, is also
a `Crash` step.

## Left out

- Slack transport, event acknowledgement, `PostMessage` errors (logged and ignored by the
  source) and all logging and `fmt.Printf` output are left out. A post becomes the `Posted`
  outcome.
- Mutexes and double-checked locking in `AddCommand`, `getAttributes`, `installationIDFor`,
  `getTokenForInstallation` and `getSlug` are left out. The operations are modelled
  sequentially, so the second cache check under the write lock is the same as the first.
- The compiled expression is an oracle from the token map to a boolean or a run error. The
  panic of `result.(bool)` on a non-boolean result is not modelled.
- `expr.Compile`, YAML loading, the directory walk (`getKnowledgeEntryPaths`,
  `loadKnowledgeEntries`, `init`) and `KnowledgeCommandAttributes` are not part of this
  model. The latter's `MessageOfInterest` is never consulted by `Handler`.
- `util.TokensPresentAND` and `util.TokensPresentOR` are not part of this model. They are
  assumed to mean "every listed token is a key of the token map" and "some listed token is
  a key", and `MatchTree.AndNode` and `MatchTree.OrNode` rest on that assumption.
- `util.NormalizeTokens`, `platforms.GetPathContextTerms`, `ContainsBotMention`,
  `GetThreadUrl` and `getCachedClient` are oracles. `getCachedClient` never stores the
  client it creates, so it is modelled as "a client is available or not".
- `Knowledge.IsMatch` passes the asset by value. Its write-back into the `Terms` backing
  array that the copy shares with the original is not modelled. The node values are
  written back through the returned tree, so aliasing between tree nodes is not captured.
- `Knowledge.DumpMatchTree` requires a depth cell of at least -1. Below that,
  `strings.Repeat` gets a negative count and panics; that panic is not modelled. Its own
  recursive call passes a cell it has already raised to at least 0.
- `Knowledge.DumpMatchTree` uses an unbounded integer for the `int64` depth. Overflow
  needs a tree deeper than 2^63 and is not modelled.
- JWT signing (RS256) and the RFC 3339 rendering of the expiry header are oracles. Times
  are integer seconds.
- Descriptor callbacks (`create.go`, `summarize.go`, `unsized-stories.go`) are oracles.
  Only the descriptor values of the unsized-stories command are used, in examples.
- `Commands.Handler` returns the list of invoked registry positions as a ghost value. The
  callbacks themselves are pure functions, so any side effects they have are not modelled.
