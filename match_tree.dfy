/**
 * The `data.TokenMatch` condition tree of a knowledge asset and the meaning
 * of evaluating it against a message's token set: the boolean result, and
 * the tree as it stands afterwards, with the `Satisfied` flag of every
 * visited node written back.
 */
module MatchTree {
  import opened Wrappers

  /** The presence map built by the token normaliser: each normalised token is a key. */
  type TokenMap = map<string, string>

  /**
   * A compiled expression (`CompiledExpr`), run with the single binding
   * `tokens`: either its boolean value or a run error.
   */
  type Program = TokenMap -> Result<bool>

  /** `data.TokenMatch`. */
  datatype TokenMatch = TokenMatch(
    tokens: seq<string>,     // Tokens: literal tokens of this node
    terms: seq<TokenMatch>,  // Terms: child conditions
    kind: string,            // Type: "or" selects OR, anything else AND
    expr: string,            // Expr: the expression's source text
    compiled: Option<Program>, // CompiledExpr; None is a nil program
    satisfied: bool)         // Satisfied: result of the last evaluation

  /** Only the exact, lower-case `Type` "or" selects OR. */
  predicate IsOr(m: TokenMatch)
  {
    m.kind == "or"
  }

  /** Every wanted token is present. */
  predicate TokensPresentAND(tokens: TokenMap, want: seq<string>)
  {
    forall i :: 0 <= i < |want| ==> want[i] in tokens
  }

  /** Some wanted token is present. */
  predicate TokensPresentOR(tokens: TokenMap, want: seq<string>)
  {
    exists i :: 0 <= i < |want| && want[i] in tokens
  }

  /** The test on a node's own `Tokens`; a node without tokens passes it. */
  predicate LiteralsMatch(m: TokenMatch, tokens: TokenMap)
  {
    |m.tokens| == 0 ||
    (if IsOr(m) then TokensPresentOR(tokens, m.tokens) else TokensPresentAND(tokens, m.tokens))
  }

  /** Running a compiled expression: a run error counts as false. */
  predicate RunProgram(p: Program, tokens: TokenMap)
  {
    match p(tokens)
    case Ok(b) => b
    case Err(_) => false
  }

  /**
   * The meaning of a condition tree. An expression node is its expression;
   * any other node needs its token test and, when it has terms, all of them
   * (AND) or one of them (OR).
   */
  predicate Eval(m: TokenMatch, tokens: TokenMap)
    decreases m
  {
    if m.compiled.Some? then RunProgram(m.compiled.value, tokens)
    else
      LiteralsMatch(m, tokens) &&
      (|m.terms| == 0 ||
       if IsOr(m) then exists i :: 0 <= i < |m.terms| && Eval(m.terms[i], tokens)
       else forall i :: 0 <= i < |m.terms| ==> Eval(m.terms[i], tokens))
  }

  /**
   * Whether evaluating `m` evaluates its term `i`: only after the token test
   * passed, and for OR only while no earlier term was true.
   */
  predicate Visited(m: TokenMatch, tokens: TokenMap, i: nat)
    requires i < |m.terms|
  {
    LiteralsMatch(m, tokens) &&
    (IsOr(m) ==> forall j :: 0 <= j < i ==> !Eval(m.terms[j], tokens))
  }

  /**
   * The tree after an evaluation: an expression node is left as it was; any
   * other node records its result in `satisfied`, and each visited term is
   * replaced by its own evaluated tree.
   */
  function Evaluated(m: TokenMatch, tokens: TokenMap): TokenMatch
    decreases m
  {
    if m.compiled.Some? then m
    else
      m.(terms := seq(|m.terms|, i requires 0 <= i < |m.terms| =>
                        if Visited(m, tokens, i) then Evaluated(m.terms[i], tokens) else m.terms[i]),
         satisfied := Eval(m, tokens))
  }

  /** The tree with every `satisfied` flag cleared: its shape. */
  function Erase(m: TokenMatch): TokenMatch
    decreases m
  {
    m.(terms := seq(|m.terms|, i requires 0 <= i < |m.terms| => Erase(m.terms[i])),
       satisfied := false)
  }

  /** An expression node is exactly its expression; its tokens, terms and type are never read. */
  lemma ExpressionWins(m: TokenMatch, tokens: TokenMap, ts: seq<string>, children: seq<TokenMatch>, kind: string)
    requires m.compiled.Some?
    ensures Eval(m, tokens) == RunProgram(m.compiled.value, tokens)
    ensures Eval(m.(tokens := ts, terms := children, kind := kind), tokens) == Eval(m, tokens)
    ensures Evaluated(m, tokens) == m
  {
  }

  /**
   * A node whose type is not "or" (also "", "OR", "and") is an AND node: all
   * its tokens present and all its terms true; no tokens and no terms each
   * count as satisfied.
   */
  lemma AndNode(m: TokenMatch, tokens: TokenMap)
    requires m.compiled.None? && m.kind != "or"
    ensures Eval(m, tokens) <==>
              (forall i :: 0 <= i < |m.tokens| ==> m.tokens[i] in tokens) &&
              (forall i :: 0 <= i < |m.terms| ==> Eval(m.terms[i], tokens))
  {
  }

  /** An OR node: some token present (or none listed) and some term true (or none listed). */
  lemma OrNode(m: TokenMatch, tokens: TokenMap)
    requires m.compiled.None? && m.kind == "or"
    ensures Eval(m, tokens) <==>
              (|m.tokens| == 0 || exists i :: 0 <= i < |m.tokens| && m.tokens[i] in tokens) &&
              (|m.terms| == 0 || exists i :: 0 <= i < |m.terms| && Eval(m.terms[i], tokens))
  {
  }

  /** A node with no tokens, no terms and no expression is satisfied by every token set. */
  lemma EmptyNodeHolds(m: TokenMatch, tokens: TokenMap)
    requires m.compiled.None? && |m.tokens| == 0 && |m.terms| == 0
    ensures Eval(m, tokens)
  {
  }

  /**
   * What evaluation writes: the node's own flag becomes the result; when the
   * token test fails no term is touched; under OR the terms after the first
   * true one are left as they were.
   */
  lemma WriteBack(m: TokenMatch, tokens: TokenMap)
    requires m.compiled.None?
    ensures Evaluated(m, tokens).satisfied == Eval(m, tokens)
    ensures |Evaluated(m, tokens).terms| == |m.terms|
    ensures !LiteralsMatch(m, tokens) ==> Evaluated(m, tokens).terms == m.terms
    ensures forall j, k :: IsOr(m) && 0 <= j < k < |m.terms| && Eval(m.terms[j], tokens) ==>
              Evaluated(m, tokens).terms[k] == m.terms[k]
    ensures forall k :: !IsOr(m) && LiteralsMatch(m, tokens) && 0 <= k < |m.terms| ==>
              Evaluated(m, tokens).terms[k] == Evaluated(m.terms[k], tokens)
  {
  }

  /** Evaluation changes nothing but `satisfied` flags. */
  lemma {:induction false} EvaluatedKeepsShape(m: TokenMatch, tokens: TokenMap)
    ensures Erase(Evaluated(m, tokens)) == Erase(m)
    decreases m
  {
    if m.compiled.None? {
      var e := Evaluated(m, tokens);
      assert |e.terms| == |m.terms|;
      forall i | 0 <= i < |m.terms|
        ensures Erase(e.terms[i]) == Erase(m.terms[i])
      {
        if Visited(m, tokens, i) {
          EvaluatedKeepsShape(m.terms[i], tokens);
        }
      }
      assert Erase(e).terms == Erase(m).terms;
    }
  }

  /** The result of an evaluation does not depend on the `satisfied` flags it finds. */
  lemma {:induction false} EvalIgnoresFlags(m: TokenMatch, tokens: TokenMap)
    ensures Eval(Erase(m), tokens) == Eval(m, tokens)
    decreases m
  {
    var e := Erase(m);
    forall i | 0 <= i < |m.terms|
      ensures Eval(e.terms[i], tokens) == Eval(m.terms[i], tokens)
    {
      EvalIgnoresFlags(m.terms[i], tokens);
    }
  }

  /** Two trees of the same shape evaluate alike. */
  lemma SameShapeSameResult(a: TokenMatch, b: TokenMatch, tokens: TokenMap)
    requires Erase(a) == Erase(b)
    ensures Eval(a, tokens) == Eval(b, tokens)
  {
    EvalIgnoresFlags(a, tokens);
    EvalIgnoresFlags(b, tokens);
  }

  /**
   * Evaluating the written-back tree again against the same tokens yields
   * the same result and writes nothing new.
   */
  lemma {:induction false} EvaluatedIdempotent(m: TokenMatch, tokens: TokenMap)
    ensures Eval(Evaluated(m, tokens), tokens) == Eval(m, tokens)
    ensures Evaluated(Evaluated(m, tokens), tokens) == Evaluated(m, tokens)
    decreases m
  {
    var e := Evaluated(m, tokens);
    EvaluatedKeepsShape(m, tokens);
    SameShapeSameResult(e, m, tokens);
    if m.compiled.None? {
      var ee := Evaluated(e, tokens);
      forall i | 0 <= i < |m.terms|
        ensures Eval(e.terms[i], tokens) == Eval(m.terms[i], tokens)
      {
        if Visited(m, tokens, i) {
          EvaluatedIdempotent(m.terms[i], tokens);
        }
      }
      assert LiteralsMatch(e, tokens) == LiteralsMatch(m, tokens);
      forall i | 0 <= i < |m.terms|
        ensures Visited(e, tokens, i) == Visited(m, tokens, i)
        ensures ee.terms[i] == e.terms[i]
      {
        if Visited(m, tokens, i) {
          EvaluatedIdempotent(m.terms[i], tokens);
        }
      }
      assert ee.terms == e.terms;
    }
  }
}
