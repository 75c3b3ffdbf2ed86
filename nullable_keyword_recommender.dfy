/**
 * The C# completion recommender for the `nullable` keyword.
 *
 * Outside a preprocessor-keyword context the keyword is offered only after
 * `# pragma warning <action>`, where `<action>` is `disable`, `restore` or
 * `enable`. The recommender walks back from the token before the caret,
 * through three previous tokens, skipped tokens included.
 */
module NullableKeywordRecommender {

  /** The token kinds the recommender distinguishes; every other kind is `OtherKind`. */
  datatype SyntaxKind =
    | None             // the kind of the default (missing) token
    | HashToken
    | PragmaKeyword
    | WarningKeyword
    | DisableKeyword
    | RestoreKeyword
    | EnableKeyword
    | NullableKeyword
    | OtherKind(id: nat)

  /** A token of the file: its kind, and whether the parser skipped it. */
  datatype Token = Token(kind: SyntaxKind, skipped: bool)

  /**
   * What the recommender reads of its completion context: whether the caret is
   * where a preprocessor keyword goes, and the file's tokens up to and including
   * the target token (the token just before the caret), in document order.
   */
  datatype Context = Context(isPreProcessorKeywordContext: bool, tokens: seq<Token>)

  /** The keyword this recommender offers. */
  const Keyword: SyntaxKind := NullableKeyword

  /** The recommender is constructed with `isValidInPreprocessorContext: true`. */
  const IsValidInPreprocessorContext: bool := true

  /** A token of a file, by its index; `Missing` stands for the default token. */
  datatype TokenRef = Missing | At(index: nat)

  predicate ValidRef(tokens: seq<Token>, t: TokenRef)
  {
    t.At? ==> t.index < |tokens|
  }

  /** The kind of a referenced token; the default token has kind `None`. */
  function KindOf(tokens: seq<Token>, t: TokenRef): SyntaxKind
    requires ValidRef(tokens, t)
  {
    if t.Missing? then None else tokens[t.index].kind
  }

  /** The target token: the last token before the caret, or the default token in an empty file. */
  function TargetToken(tokens: seq<Token>): (t: TokenRef)
    ensures ValidRef(tokens, t)
    ensures t.At? <==> |tokens| > 0
  {
    if |tokens| == 0 then Missing else At(|tokens| - 1)
  }

  /**
   * `GetPreviousToken(includeSkipped)` of the syntax tree: the nearest earlier
   * token, passing over skipped tokens unless `includeSkipped` is set; the
   * default token has no previous token, and neither has the first token.
   */
  function PreviousToken(tokens: seq<Token>, t: TokenRef, includeSkipped: bool): (r: TokenRef)
    requires ValidRef(tokens, t)
    ensures ValidRef(tokens, r)
    ensures r.At? ==> t.At? && r.index < t.index
    ensures r.At? && !includeSkipped ==> !tokens[r.index].skipped
    ensures includeSkipped ==> r == (if t.At? && t.index > 0 then At(t.index - 1) else Missing)
    decreases if t.At? then t.index else 0
  {
    if t.Missing? || t.index == 0 then Missing
    else if includeSkipped || !tokens[t.index - 1].skipped then At(t.index - 1)
    else PreviousToken(tokens, At(t.index - 1), includeSkipped)
  }

  /** The `<action>` of `#pragma warning <action>`. */
  predicate IsWarningAction(k: SyntaxKind)
  {
    k == DisableKeyword || k == RestoreKeyword || k == EnableKeyword
  }

  /**
   * The reference reading of the rule, without any walk: the last four tokens,
   * in document order, are `#`, `pragma`, `warning` and an action.
   */
  predicate EndsWithPragmaWarningAction(tokens: seq<Token>)
  {
    var n := |tokens|;
    && n >= 4
    && tokens[n - 4].kind == HashToken
    && tokens[n - 3].kind == PragmaKeyword
    && tokens[n - 2].kind == WarningKeyword
    && IsWarningAction(tokens[n - 1].kind)
  }

  /** `NullableKeywordRecommender.IsValidContext`. */
  function IsValidContext(context: Context): (r: bool)
    ensures r <==> context.isPreProcessorKeywordContext || EndsWithPragmaWarningAction(context.tokens)
  {
    if context.isPreProcessorKeywordContext then
      true
    else
      var tokens := context.tokens;
      var previousToken1 := TargetToken(tokens);
      var previousToken2 := PreviousToken(tokens, previousToken1, true);
      var previousToken3 := PreviousToken(tokens, previousToken2, true);
      var previousToken4 := PreviousToken(tokens, previousToken3, true);
      IsWarningAction(KindOf(tokens, previousToken1))
      && KindOf(tokens, previousToken2) == WarningKeyword
      && KindOf(tokens, previousToken3) == PragmaKeyword
      && KindOf(tokens, previousToken4) == HashToken
  }

  /** Only the last four tokens are inspected: what comes before them never matters. */
  lemma OnlyLastFourTokensMatter(pre1: seq<Token>, pre2: seq<Token>, last: seq<Token>, inPreprocessor: bool)
    requires |last| == 4
    ensures IsValidContext(Context(inPreprocessor, pre1 + last)) == IsValidContext(Context(inPreprocessor, pre2 + last))
  {
    var s1, s2 := pre1 + last, pre2 + last;
    assert s1[|s1| - 4..] == last == s2[|s2| - 4..];
  }

  /** Skipped tokens are walked like any others: only the token kinds decide. */
  lemma {:induction false} SkippedFlagsDoNotMatter(c1: Context, c2: Context)
    requires c1.isPreProcessorKeywordContext == c2.isPreProcessorKeywordContext
    requires |c1.tokens| == |c2.tokens|
    requires forall i :: 0 <= i < |c1.tokens| ==> c1.tokens[i].kind == c2.tokens[i].kind
    ensures IsValidContext(c1) == IsValidContext(c2)
  {
  }

  /** Without the surrounding `# pragma`, `warning` as the nearest token never qualifies. */
  lemma NearestTokenMustBeAnAction(context: Context)
    requires !context.isPreProcessorKeywordContext
    requires |context.tokens| > 0 && !IsWarningAction(context.tokens[|context.tokens| - 1].kind)
    ensures !IsValidContext(context)
  {
  }

  /** The source's own example: `# pragma warning disable` followed by the caret. */
  lemma PragmaWarningDisableExample(before: seq<Token>)
    ensures IsValidContext(Context(false, before + [Token(HashToken, false), Token(PragmaKeyword, false),
                                                   Token(WarningKeyword, false), Token(DisableKeyword, true)]))
    ensures !IsValidContext(Context(false, before + [Token(HashToken, false), Token(PragmaKeyword, false),
                                                    Token(WarningKeyword, false)]))
  {
  }
}
