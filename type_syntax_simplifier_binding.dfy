/**
 * `TypeSyntaxSimplifierWalker`, the name visits: how the walker decides that
 * a type or namespace name can be written shorter.
 *
 * Each visit tries its replacements in a fixed order and stops at the first
 * that reports a diagnostic: a predefined type keyword (`Int32` to `int`), an
 * alias in scope, `T?` for `Nullable<T>`, and dropping the qualifier (`A.B`
 * to `B`). A visit that reports nothing goes on into the node's children. The
 * symbol a node binds to is looked up at most once per visit and shared by the
 * attempts through a cache.
 *
 * The replacements are first stated as functions of the walker's environment
 * and alias scopes (`...Replacement`, `...Outcome`, `SyntaxDiagnostics`); the
 * methods that append to the walker's diagnostics are proved against them.
 */
module TypeSyntaxSimplifierBinding {
  import opened TypeSyntaxSimplifierScopes

  /**
   * What a visit knows of a node's parent: whether the node is the right
   * side of `.` or `::` (such names are handled by the visit of their
   * parent), whether its parent is a using directive, and, for the parts of
   * a using directive's name reached through qualified names only, that
   * directive (`IsNameOfUsingDirective`).
   */
  datatype Context = Context(isRightSide: bool, parentIsUsingDirective: bool, usingDirective: Option<UsingDirective>)

  /** A node whose parent is neither a qualified name nor a using directive. */
  const Inside := Context(false, false, None)

  /** The alias scopes the visits consult: the alias stack and the top aliased-symbol names set. */
  datatype Aliases = Aliases(aliasStack: seq<map<Symbol, string>>, aliasedNames: set<string>)

  function AliasesInScope(w: Walker): Aliases
    reads w`aliasStack, w`aliasedSymbolNamesStack
    requires |w.aliasedSymbolNamesStack| > 0
  {
    Aliases(w.aliasStack, Peek(w.aliasedSymbolNamesStack))
  }

  /** The framework names that have a predefined type keyword. */
  const PredefinedTypeNames: set<string> := {
    "Boolean", "Byte", "SByte", "Int32", "UInt32", "Int16", "UInt16", "Int64",
    "UInt64", "Single", "Double", "Decimal", "String", "Char", "Object" }

  function Emitted(d: Option<Diagnostic>): seq<Diagnostic>
  {
    if d.Some? then [d.value] else []
  }

  /** The first attempt that reports a diagnostic. */
  function FirstOf(first: Option<Diagnostic>, next: Option<Diagnostic>): Option<Diagnostic>
  {
    if first.Some? then first else next
  }

  // ---- Syntax helpers ----

  /** `GetRightmostName`: the simple name at the right end of a name or member access. */
  function GetRightmostName(e: Syntax): Option<SimpleName>
  {
    match e
    case Simple(n) => Some(n)
    case QualifiedName(_, _, right) => Some(right)
    case AliasQualifiedName(_, _, _, name) => Some(name)
    case SimpleMemberAccess(_, _, name) => Some(name)
    case OtherExpression(_, _) => None
  }

  /**
   * `TryGetPartsOfQualifiedName`: the left and right parts of `A.B`,
   * `X::B` and a member access `e.B`; nothing for any other shape. The right
   * part is always the rightmost name.
   */
  function TryGetPartsOfQualifiedName(e: Syntax): (r: Option<(Syntax, SimpleName)>)
    ensures r.Some? <==> e.QualifiedName? || e.AliasQualifiedName? || e.SimpleMemberAccess?
    ensures r.Some? ==> GetRightmostName(e) == Some(r.value.1)
    ensures e.QualifiedName? ==> r.value.0 == e.left
    ensures e.AliasQualifiedName? ==> r.value.0 == Simple(IdentifierName(e.aliasSpan, e.alias))
    ensures e.SimpleMemberAccess? ==> r.value.0 == e.expression
  {
    match e
    case QualifiedName(_, left, right) => Some((left, right))
    case AliasQualifiedName(_, aliasSpan, alias, name) => Some((Simple(IdentifierName(aliasSpan, alias)), name))
    case SimpleMemberAccess(_, expression, name) => Some((expression, name))
    case _ => None
  }

  /** The end of a chain of simple member accesses `a.b.c`: the expression the chain starts from. */
  function Leftmost(e: Syntax): (r: Syntax)
    ensures !r.SimpleMemberAccess?
    ensures e.SimpleMemberAccess? ==> r < e
    ensures !e.SimpleMemberAccess? ==> r == e
  {
    if e.SimpleMemberAccess? then Leftmost(e.expression) else e
  }

  /** A member access whose chain starts from an alias-qualified, identifier or generic name. */
  predicate Simplifiable(node: Syntax)
    requires node.SimpleMemberAccess?
  {
    Leftmost(node.expression).AliasQualifiedName? || Leftmost(node.expression).Simple?
  }

  /** `IsSimplifiableMemberAccess`: strips the chain of member accesses and inspects where it starts. */
  method IsSimplifiableMemberAccess(node: Syntax) returns (r: bool)
    requires node.SimpleMemberAccess?
    ensures r <==> Leftmost(node.expression).AliasQualifiedName? || Leftmost(node.expression).Simple?
  {
    var current := node.expression;
    while current.SimpleMemberAccess?
      invariant Leftmost(current) == Leftmost(node.expression)
      decreases current
    {
      current := current.expression;
    }
    return current.AliasQualifiedName? || current.Simple?;
  }

  /** In a simplifiable member access, the accessed expression has a rightmost name. */
  lemma {:induction false} SimplifiableHasRightmostName(node: Syntax)
    requires node.SimpleMemberAccess? && Simplifiable(node)
    ensures GetRightmostName(node.expression).Some?
  {
  }

  // ---- The semantic model ----

  /** `LookupName`: namespaces and types in a declaration context, all symbols elsewhere, at the node's start. */
  function LookupName(env: Environment, location: Syntax, inDeclaration: bool, name: string): seq<Symbol>
  {
    if inDeclaration then env.semanticModel.lookupNamespacesAndTypes(SpanOf(location).start, Some(name))
    else env.semanticModel.lookupSymbols(SpanOf(location).start, name)
  }

  /** `GetNamespaceOrTypeSymbol`: the namespace or type a node binds to, unless the binding is ambiguous. */
  function GetNamespaceOrTypeSymbol(env: Environment, e: Syntax): (r: Option<Symbol>)
    ensures r.Some? <==>
              && env.semanticModel.getSymbolInfo(e).candidateCount == 0
              && env.semanticModel.getSymbolInfo(e).symbol.Some?
              && IsNamespaceOrType(env.semanticModel.getSymbolInfo(e).symbol.value)
    ensures r.Some? ==> r == env.semanticModel.getSymbolInfo(e).symbol
  {
    var info := env.semanticModel.getSymbolInfo(e);
    if info.candidateCount > 0 then None
    else if info.symbol.Some? && IsNamespaceOrType(info.symbol.value) then info.symbol
    else None
  }

  /**
   * The `ref symbol` cache shared by the attempts of one visit: empty, or
   * holding what `GetNamespaceOrTypeSymbol` gives for the visited node.
   */
  predicate CacheAgrees(env: Environment, node: Syntax, symbol: Option<Symbol>)
  {
    symbol.Some? ==> symbol == GetNamespaceOrTypeSymbol(env, node)
  }

  /** `symbol ??= GetNamespaceOrTypeSymbol(node)`. */
  method Resolve(env: Environment, node: Syntax, symbol: Option<Symbol>) returns (resolved: Option<Symbol>)
    requires CacheAgrees(env, node, symbol)
    ensures resolved == GetNamespaceOrTypeSymbol(env, node)
  {
    resolved := symbol;
    if resolved.None? {
      resolved := GetNamespaceOrTypeSymbol(env, node);
    }
  }

  /** `symbol.OriginalDefinition`: a constructed type's generic definition, any other symbol itself. */
  datatype DefinitionKey = TypeDefinition(definition: nat) | SymbolDefinition(symbol: Symbol)

  function OriginalDefinition(s: Symbol): DefinitionKey
  {
    if s.NamedTypeSymbol? then TypeDefinition(s.definition) else SymbolDefinition(s)
  }

  /** Some symbol found is an alias whose target is `symbol`. */
  predicate FindsAliasOf(found: seq<Symbol>, symbol: Symbol)
  {
    exists f :: f in found && f.AliasSymbol? && f.target == symbol
  }

  /** Some symbol found has the same original definition as `symbol`. */
  predicate FindsDefinitionOf(found: seq<Symbol>, symbol: Symbol)
  {
    exists f :: f in found && OriginalDefinition(f) == OriginalDefinition(symbol)
  }

  /** The `foreach` over the symbols found for an alias name. */
  method ScanForAliasOf(found: seq<Symbol>, symbol: Symbol) returns (r: bool)
    ensures r <==> exists i :: 0 <= i < |found| && found[i].AliasSymbol? && found[i].target == symbol
  {
    for i := 0 to |found|
      invariant forall j :: 0 <= j < i ==> !(found[j].AliasSymbol? && found[j].target == symbol)
    {
      if found[i].AliasSymbol? && found[i].target == symbol {
        return true;
      }
    }
    return false;
  }

  /** The `foreach` over the symbols found for a right-hand name. */
  method ScanForDefinitionOf(found: seq<Symbol>, symbol: Symbol) returns (r: bool)
    ensures r <==> exists i :: 0 <= i < |found| && OriginalDefinition(found[i]) == OriginalDefinition(symbol)
  {
    for i := 0 to |found|
      invariant forall j :: 0 <= j < i ==> OriginalDefinition(found[j]) != OriginalDefinition(symbol)
    {
      if OriginalDefinition(found[i]) == OriginalDefinition(symbol) {
        return true;
      }
    }
    return false;
  }

  // ---- Predefined types ----

  /** The option that governs the context: in declarations, or in member access. */
  predicate PrefersPredefinedType(env: Environment, inDeclaration: bool)
  {
    if inDeclaration then env.preferPredefinedTypeInDecl else env.preferPredefinedTypeInMemberAccess
  }

  /** A type whose special type has a predefined keyword. */
  predicate IsKeywordType(symbol: Option<Symbol>)
  {
    symbol.Some? && symbol.value.NamedTypeSymbol? && symbol.value.hasPredefinedKeyword
  }

  /**
   * `TryReplaceWithPredefinedType`: reported, over the whole node, exactly
   * when the option for the context is on, the name is one of the framework
   * names with a keyword, the node is not the name of a using directive, and
   * it binds to a type that has a keyword.
   */
  function PredefinedTypeReplacement(env: Environment, node: Syntax, typeName: string, inDeclaration: bool, parentIsUsingDirective: bool)
    : (r: Option<Diagnostic>)
    ensures r.Some? <==>
              && PrefersPredefinedType(env, inDeclaration)
              && typeName in PredefinedTypeNames
              && !parentIsUsingDirective
              && IsKeywordType(GetNamespaceOrTypeSymbol(env, node))
    ensures r.Some? ==> r.value == Diagnostic(SpanOf(node), PreferBuiltInOrFrameworkType, inDeclaration)
  {
    if inDeclaration && !env.preferPredefinedTypeInDecl then None
    else if !inDeclaration && !env.preferPredefinedTypeInMemberAccess then None
    else if typeName in PredefinedTypeNames && !parentIsUsingDirective then
      var symbol := GetNamespaceOrTypeSymbol(env, node);
      if symbol.Some? && symbol.value.NamedTypeSymbol? && symbol.value.hasPredefinedKeyword
      then Some(Diagnostic(SpanOf(node), PreferBuiltInOrFrameworkType, inDeclaration))
      else None
    else None
  }

  // ---- Nullable ----

  /** A type constructed from `System.Nullable<T>`. */
  predicate IsNullableType(symbol: Option<Symbol>)
  {
    symbol.Some? && symbol.value.NamedTypeSymbol? && symbol.value.definitionIsNullable
  }

  /**
   * `TryReplaceWithNullable`: reported, over the whole node, exactly when the
   * node is in a declaration context, is named `Nullable`, is not the name of
   * a using directive, and binds to a `Nullable<T>`.
   */
  function NullableReplacement(env: Environment, node: Syntax, typeName: string, inDeclaration: bool, parentIsUsingDirective: bool)
    : (r: Option<Diagnostic>)
    ensures r.Some? <==>
              && inDeclaration
              && typeName == "Nullable"
              && !parentIsUsingDirective
              && IsNullableType(GetNamespaceOrTypeSymbol(env, node))
    ensures r.Some? ==> r.value == Diagnostic(SpanOf(node), SimplifyNames, inDeclaration)
  {
    if inDeclaration && typeName == "Nullable" && !parentIsUsingDirective then
      var symbol := GetNamespaceOrTypeSymbol(env, node);
      if symbol.Some? && symbol.value.NamedTypeSymbol? && symbol.value.definitionIsNullable
      then Some(Diagnostic(SpanOf(node), SimplifyNames, inDeclaration))
      else None
    else None
  }

  // ---- Aliases ----

  /**
   * An alias scope offers `symbol`'s alias: it aliases the symbol, the alias
   * is the name itself when that is demanded, and the alias name, looked up
   * at the node, finds an alias of the symbol.
   */
  predicate AliasUsable(env: Environment, scope: map<Symbol, string>, symbol: Symbol, node: Syntax, typeName: string, inDeclaration: bool, nameMustMatch: bool)
  {
    && symbol in scope
    && (!nameMustMatch || scope[symbol] == typeName)
    && FindsAliasOf(LookupName(env, node, inDeclaration, scope[symbol]), symbol)
  }

  /**
   * The alias search over the first `n` scopes of the stack, from the
   * innermost (`n - 1`) outwards: the alias of the first scope that offers
   * one.
   */
  function FindAlias(env: Environment, aliasStack: seq<map<Symbol, string>>, n: nat, symbol: Symbol, node: Syntax, typeName: string, inDeclaration: bool, nameMustMatch: bool)
    : (r: Option<string>)
    requires n <= |aliasStack|
    ensures r.Some? && nameMustMatch ==> r.value == typeName
    ensures r.Some? ==> FindsAliasOf(LookupName(env, node, inDeclaration, r.value), symbol)
    decreases n
  {
    if n == 0 then None
    else if AliasUsable(env, aliasStack[n - 1], symbol, node, typeName, inDeclaration, nameMustMatch) then Some(aliasStack[n - 1][symbol])
    else FindAlias(env, aliasStack, n - 1, symbol, node, typeName, inDeclaration, nameMustMatch)
  }

  /**
   * The search finds an alias exactly when some scope offers one, and then
   * it is the alias of the innermost such scope: no scope inside it offers
   * one.
   */
  lemma {:induction false} FindAliasIsInnermost(env: Environment, aliasStack: seq<map<Symbol, string>>, n: nat, symbol: Symbol, node: Syntax, typeName: string, inDeclaration: bool, nameMustMatch: bool)
    requires n <= |aliasStack|
    ensures FindAlias(env, aliasStack, n, symbol, node, typeName, inDeclaration, nameMustMatch).Some? <==>
              exists i :: 0 <= i < n && AliasUsable(env, aliasStack[i], symbol, node, typeName, inDeclaration, nameMustMatch)
    ensures FindAlias(env, aliasStack, n, symbol, node, typeName, inDeclaration, nameMustMatch).Some? ==>
              exists i :: 0 <= i < n
                && AliasUsable(env, aliasStack[i], symbol, node, typeName, inDeclaration, nameMustMatch)
                && FindAlias(env, aliasStack, n, symbol, node, typeName, inDeclaration, nameMustMatch) == Some(aliasStack[i][symbol])
                && forall j :: i < j < n ==> !AliasUsable(env, aliasStack[j], symbol, node, typeName, inDeclaration, nameMustMatch)
    decreases n
  {
    if n > 0 && !AliasUsable(env, aliasStack[n - 1], symbol, node, typeName, inDeclaration, nameMustMatch) {
      FindAliasIsInnermost(env, aliasStack, n - 1, symbol, node, typeName, inDeclaration, nameMustMatch);
    }
  }

  /**
   * `AddAliasDiagnostic`: nothing when the node is an identifier already
   * spelled as the alias; only the left part when the node is qualified and
   * its right part is an identifier spelled as the alias; the whole node
   * otherwise.
   */
  function AddAliasDiagnostic(node: Syntax, alias: string, inDeclaration: bool): (r: Option<Diagnostic>)
    ensures r.None? <==> node.Simple? && node.name.IdentifierName? && node.name.identifier == alias
    ensures r.Some? ==> r.value.id == SimplifyNames && r.value.inDeclaration == inDeclaration
    ensures r.Some? && RightIdentifierIs(node, alias) ==> r.value.span == SpanOf(TryGetPartsOfQualifiedName(node).value.0)
    ensures r.Some? && !RightIdentifierIs(node, alias) ==> r.value.span == SpanOf(node)
  {
    if node.Simple? && node.name.IdentifierName? && node.name.identifier == alias then None
    else
      var parts := TryGetPartsOfQualifiedName(node);
      if parts.Some? && parts.value.1.IdentifierName? && parts.value.1.identifier == alias
      then Some(Diagnostic(SpanOf(parts.value.0), SimplifyNames, inDeclaration))
      else Some(Diagnostic(SpanOf(node), SimplifyNames, inDeclaration))
  }

  /** A qualified node whose right part is an identifier spelled `alias`. */
  predicate RightIdentifierIs(node: Syntax, alias: string)
  {
    var parts := TryGetPartsOfQualifiedName(node);
    parts.Some? && parts.value.1.IdentifierName? && parts.value.1.identifier == alias
  }

  /**
   * `TryReplaceWithAlias`: when some enclosing scope aliases a symbol named
   * `typeName` and the node binds to a namespace or type, the innermost
   * usable alias of that symbol, reported by `AddAliasDiagnostic`.
   */
  function AliasReplacement(env: Environment, aliases: Aliases, node: Syntax, typeName: string, inDeclaration: bool, nameMustMatch: bool)
    : (r: Option<Diagnostic>)
    ensures r.Some? ==> typeName in aliases.aliasedNames && GetNamespaceOrTypeSymbol(env, node).Some?
    ensures r.Some? ==> r.value.id == SimplifyNames && r.value.inDeclaration == inDeclaration
  {
    if typeName !in aliases.aliasedNames then None
    else
      var symbol := GetNamespaceOrTypeSymbol(env, node);
      if symbol.None? then None
      else
        var alias := FindAlias(env, aliases.aliasStack, |aliases.aliasStack|, symbol.value, node, typeName, inDeclaration, nameMustMatch);
        if alias.None? then None
        else AddAliasDiagnostic(node, alias.value, inDeclaration)
  }

  /**
   * The quick check against the top aliased-names set turns nothing away:
   * in nested alias scopes, when the node binds to a symbol spelled as the
   * name looked for and some scope offers an alias for it, the name is in
   * the top set.
   */
  lemma QuickCheckKeepsEveryAlias(env: Environment, aliasStack: seq<map<Symbol, string>>, namesStack: seq<set<string>>, node: Syntax, typeName: string, inDeclaration: bool, nameMustMatch: bool)
    requires AliasScopesNested(aliasStack, namesStack) && |namesStack| > 0
    requires GetNamespaceOrTypeSymbol(env, node).Some? && GetNamespaceOrTypeSymbol(env, node).value.name == typeName
    requires FindAlias(env, aliasStack, |aliasStack|, GetNamespaceOrTypeSymbol(env, node).value, node, typeName, inDeclaration, nameMustMatch).Some?
    ensures typeName in Peek(namesStack)
  {
    var symbol := GetNamespaceOrTypeSymbol(env, node).value;
    FindAliasIsInnermost(env, aliasStack, |aliasStack|, symbol, node, typeName, inDeclaration, nameMustMatch);
    var i :| 0 <= i < |aliasStack| && AliasUsable(env, aliasStack[i], symbol, node, typeName, inDeclaration, nameMustMatch);
    TopNamesCoverEveryScope(aliasStack, namesStack, i, symbol);
  }

  // ---- Reducing to the right side ----

  /**
   * Inside the name of a using directive, a namespace is never shortened,
   * nor is anything in a `using static`.
   */
  predicate KeptInUsing(root: Syntax, usingDirective: Option<UsingDirective>, symbol: Symbol)
  {
    root.QualifiedName? && usingDirective.Some? && (symbol.NamespaceSymbol? || usingDirective.value.isStatic)
  }

  /**
   * `TryReplaceExprWithRightSide`: reported, over the left part, exactly when
   * the name is in scope, the node binds to a namespace or type, the using
   * directive rules do not keep it, and looking up the right name alone
   * finds the same original definition.
   */
  function RightSideReplacement(env: Environment, root: Syntax, usingDirective: Option<UsingDirective>, identifier: string, left: Syntax, right: SimpleName, inDeclaration: bool)
    : (r: Option<Diagnostic>)
    ensures r.Some? <==>
              && identifier in env.namesInScope(root)
              && GetNamespaceOrTypeSymbol(env, root).Some?
              && !KeptInUsing(root, usingDirective, GetNamespaceOrTypeSymbol(env, root).value)
              && FindsDefinitionOf(LookupName(env, root, inDeclaration, right.identifier), GetNamespaceOrTypeSymbol(env, root).value)
    ensures r.Some? ==> r.value == Diagnostic(SpanOf(left), SimplifyNames, inDeclaration)
  {
    if identifier !in env.namesInScope(root) then None
    else
      var symbol := GetNamespaceOrTypeSymbol(env, root);
      if symbol.None? then None
      else if root.QualifiedName? && usingDirective.Some? && symbol.value.NamespaceSymbol? then None
      else if root.QualifiedName? && usingDirective.Some? && usingDirective.value.isStatic then None
      else if FindsDefinitionOf(LookupName(env, root, inDeclaration, right.identifier), symbol.value)
      then Some(Diagnostic(SpanOf(left), SimplifyNames, inDeclaration))
      else None
  }

  // ---- The visits, as functions ----

  /** `VisitIdentifierName`: not on a right side; a predefined type, else an alias. */
  function IdentifierNameOutcome(env: Environment, aliases: Aliases, n: SimpleName, ctx: Context): Option<Diagnostic>
    requires n.IdentifierName?
  {
    if ctx.isRightSide then None
    else
      var node := Simple(n);
      var inDeclaration := env.inNamespaceOrTypeContext(node);
      FirstOf(PredefinedTypeReplacement(env, node, n.identifier, inDeclaration, ctx.parentIsUsingDirective),
              AliasReplacement(env, aliases, node, n.identifier, inDeclaration, false))
  }

  /** `VisitGenericName`: not on a right side; an alias, else `T?`. */
  function GenericNameOutcome(env: Environment, aliases: Aliases, n: SimpleName, ctx: Context): Option<Diagnostic>
    requires n.GenericName?
  {
    if ctx.isRightSide then None
    else
      var node := Simple(n);
      var inDeclaration := env.inNamespaceOrTypeContext(node);
      FirstOf(AliasReplacement(env, aliases, node, n.identifier, inDeclaration, false),
              NullableReplacement(env, node, n.identifier, inDeclaration, ctx.parentIsUsingDirective))
  }

  /** `VisitQualifiedName`: a predefined type, else an alias, else `T?`, else the right side alone. */
  function QualifiedNameOutcome(env: Environment, aliases: Aliases, node: Syntax, ctx: Context): Option<Diagnostic>
    requires node.QualifiedName?
  {
    var inDeclaration := env.inNamespaceOrTypeContext(node);
    var identifier := node.right.identifier;
    FirstOf(PredefinedTypeReplacement(env, node, identifier, inDeclaration, ctx.parentIsUsingDirective),
    FirstOf(AliasReplacement(env, aliases, node, identifier, inDeclaration, false),
    FirstOf(NullableReplacement(env, node, identifier, inDeclaration, ctx.parentIsUsingDirective),
            RightSideReplacement(env, node, ctx.usingDirective, identifier, node.left, node.right, inDeclaration))))
  }

  /** `VisitAliasQualifiedName`: a predefined type, else an alias, else the name without `X::`. */
  function AliasQualifiedNameOutcome(env: Environment, aliases: Aliases, node: Syntax, ctx: Context): Option<Diagnostic>
    requires node.AliasQualifiedName?
  {
    var inDeclaration := env.inNamespaceOrTypeContext(node);
    var identifier := node.name.identifier;
    FirstOf(PredefinedTypeReplacement(env, node, identifier, inDeclaration, ctx.parentIsUsingDirective),
    FirstOf(AliasReplacement(env, aliases, node, identifier, inDeclaration, false),
            RightSideReplacement(env, node, ctx.usingDirective, identifier, Simple(IdentifierName(node.aliasSpan, node.alias)), node.name, inDeclaration)))
  }

  /**
   * `SimplifyMemberAccessInNameofExpression`: in `nameof(A.B.C)`, an alias
   * only if it is spelled `C`, else `C` alone.
   */
  function NameofOutcome(env: Environment, aliases: Aliases, node: Syntax): Option<Diagnostic>
    requires node.SimpleMemberAccess?
  {
    var memberName := node.name.identifier;
    FirstOf(AliasReplacement(env, aliases, node, memberName, false, true),
            RightSideReplacement(env, node, None, memberName, node.expression, node.name, false))
  }

  /**
   * `SimplifyExpressionOfMemberAccessExpression`: the accessed expression, as
   * a member access, becomes a predefined type, else an alias, else its own
   * right side.
   */
  function ExpressionOutcome(env: Environment, aliases: Aliases, expression: Syntax): Option<Diagnostic>
    requires GetRightmostName(expression).Some?
  {
    var identifier := GetRightmostName(expression).value.identifier;
    var parts := TryGetPartsOfQualifiedName(expression);
    var rightSide :=
      if parts.Some? then RightSideReplacement(env, expression, None, identifier, parts.value.0, parts.value.1, false) else None;
    FirstOf(PredefinedTypeReplacement(env, expression, identifier, false, false),
    FirstOf(AliasReplacement(env, aliases, expression, identifier, false, false), rightSide))
  }

  /** `VisitMemberAccessExpression`: a simplifiable access in `nameof`, else its accessed expression. */
  function MemberAccessOutcome(env: Environment, aliases: Aliases, node: Syntax): Option<Diagnostic>
    requires node.SimpleMemberAccess?
  {
    if !Simplifiable(node) then None
    else
      SimplifiableHasRightmostName(node);
      FirstOf(if env.isNameOfArgumentExpression(node) then NameofOutcome(env, aliases, node) else None,
              ExpressionOutcome(env, aliases, node.expression))
  }

  /**
   * All the diagnostics of a visit of `node` and, when it reports nothing,
   * of its children, in the walker's order.
   */
  function SyntaxDiagnostics(env: Environment, aliases: Aliases, node: Syntax, ctx: Context): seq<Diagnostic>
  {
    match node
    case Simple(n) => NameDiagnostics(env, aliases, n, ctx)
    case QualifiedName(_, left, right) =>
      var d := QualifiedNameOutcome(env, aliases, node, ctx);
      if d.Some? then [d.value]
      else
        SyntaxDiagnostics(env, aliases, left, Context(false, false, ctx.usingDirective))
        + NameDiagnostics(env, aliases, right, Context(true, false, ctx.usingDirective))
    case AliasQualifiedName(_, _, _, name) =>
      var d := AliasQualifiedNameOutcome(env, aliases, node, ctx);
      if d.Some? then [d.value] else NameDiagnostics(env, aliases, name, Context(true, false, None))
    case SimpleMemberAccess(_, expression, name) =>
      var d := MemberAccessOutcome(env, aliases, node);
      if d.Some? then [d.value]
      else
        SyntaxDiagnostics(env, aliases, expression, Inside)
        + NameDiagnostics(env, aliases, name, Context(true, false, None))
    case OtherExpression(_, children) => ListDiagnostics(env, aliases, children)
  }

  function NameDiagnostics(env: Environment, aliases: Aliases, n: SimpleName, ctx: Context): seq<Diagnostic>
  {
    match n
    case IdentifierName(_, _) => Emitted(IdentifierNameOutcome(env, aliases, n, ctx))
    case GenericName(_, _, typeArguments) =>
      var d := GenericNameOutcome(env, aliases, n, ctx);
      if d.Some? then [d.value] else ListDiagnostics(env, aliases, typeArguments)
  }

  function ListDiagnostics(env: Environment, aliases: Aliases, nodes: seq<Syntax>): seq<Diagnostic>
  {
    if nodes == [] then []
    else SyntaxDiagnostics(env, aliases, nodes[0], Inside) + ListDiagnostics(env, aliases, nodes[1..])
  }

  // ---- Properties of the visits ----

  /**
   * Inside a using directive, a qualified name bound to a namespace, or any
   * qualified name in a `using static`, is never shortened to its right
   * side; and no name that is directly a using directive's name becomes a
   * keyword or `T?`.
   */
  lemma UsingDirectiveNamesKept(env: Environment, node: Syntax, usingDirective: UsingDirective, left: Syntax, right: SimpleName, identifier: string, inDeclaration: bool)
    requires node.QualifiedName?
    requires GetNamespaceOrTypeSymbol(env, node).Some?
    requires GetNamespaceOrTypeSymbol(env, node).value.NamespaceSymbol? || usingDirective.isStatic
    ensures RightSideReplacement(env, node, Some(usingDirective), identifier, left, right, inDeclaration).None?
    ensures PredefinedTypeReplacement(env, node, identifier, inDeclaration, true).None?
    ensures NullableReplacement(env, node, identifier, inDeclaration, true).None?
  {
  }

  /**
   * In `nameof(e.C)`, an alias replaces only `e`: the alias is spelled `C`,
   * so the report covers the accessed expression.
   */
  lemma {:induction false} NameofAliasCoversExpression(env: Environment, aliases: Aliases, node: Syntax)
    requires node.SimpleMemberAccess? && node.name.IdentifierName?
    requires AliasReplacement(env, aliases, node, node.name.identifier, false, true).Some?
    ensures AliasReplacement(env, aliases, node, node.name.identifier, false, true).value
         == Diagnostic(SpanOf(node.expression), SimplifyNames, false)
  {
    var symbol := GetNamespaceOrTypeSymbol(env, node);
    var alias := FindAlias(env, aliases.aliasStack, |aliases.aliasStack|, symbol.value, node, node.name.identifier, false, true);
    assert alias == Some(node.name.identifier);
    assert RightIdentifierIs(node, alias.value);
  }

  /**
   * A qualified name is reported at most once, by the first attempt that
   * succeeds, and the walker then leaves its children alone: a right-side
   * reduction of `A.B` covers `A`, the other replacements the whole name.
   */
  lemma QualifiedNameReportsOnce(env: Environment, aliases: Aliases, node: Syntax, ctx: Context)
    requires node.QualifiedName?
    requires QualifiedNameOutcome(env, aliases, node, ctx).Some?
    ensures SyntaxDiagnostics(env, aliases, node, ctx) == [QualifiedNameOutcome(env, aliases, node, ctx).value]
    ensures var d := QualifiedNameOutcome(env, aliases, node, ctx).value;
            d.span == SpanOf(node) || d.span == SpanOf(node.left)
  {
  }

  // ---- The visits, as the walker runs them ----

  /** `AddDiagnostic`: one more diagnostic; always true. */
  method AddDiagnostic(w: Walker, d: Diagnostic) returns (added: bool)
    modifies w`diagnostics
    ensures w.diagnostics == old(w.diagnostics) + [d] && added
  {
    w.diagnostics := w.diagnostics + [d];
    return true;
  }

  /** Appends what an attempt reports, if anything, and says whether it did. */
  method Report(w: Walker, d: Option<Diagnostic>) returns (reported: bool)
    modifies w`diagnostics
    ensures reported == d.Some?
    ensures w.diagnostics == old(w.diagnostics) + Emitted(d)
  {
    if d.Some? {
      reported := AddDiagnostic(w, d.value);
    } else {
      reported := false;
    }
  }

  /** The reverse `for` over the alias stack in `TryReplaceWithAlias`. */
  method FindAliasInScopes(w: Walker, symbol: Symbol, node: Syntax, typeName: string, inDeclaration: bool, nameMustMatch: bool)
    returns (alias: Option<string>)
    ensures alias == FindAlias(w.env, w.aliasStack, |w.aliasStack|, symbol, node, typeName, inDeclaration, nameMustMatch)
  {
    var aliasStack := w.aliasStack;
    for i := |aliasStack| downto 0
      invariant FindAlias(w.env, aliasStack, i, symbol, node, typeName, inDeclaration, nameMustMatch)
             == FindAlias(w.env, aliasStack, |aliasStack|, symbol, node, typeName, inDeclaration, nameMustMatch)
    {
      var symbolToAlias := aliasStack[i];
      if symbol in symbolToAlias {
        var candidate := symbolToAlias[symbol];
        if nameMustMatch && candidate != typeName {
          continue;
        }
        var foundSymbols := LookupName(w.env, node, inDeclaration, candidate);
        var found := ScanForAliasOf(foundSymbols, symbol);
        if found {
          return Some(candidate);
        }
      }
    }
    return None;
  }

  /** `TryReplaceWithAlias`. */
  method TryReplaceWithAlias(w: Walker, node: Syntax, typeName: string, inDeclaration: bool, nameMustMatch: bool, symbol: Option<Symbol>)
    returns (replaced: bool, cached: Option<Symbol>)
    requires |w.aliasedSymbolNamesStack| > 0 && CacheAgrees(w.env, node, symbol)
    modifies w`diagnostics
    ensures CacheAgrees(w.env, node, cached)
    ensures replaced == AliasReplacement(w.env, AliasesInScope(w), node, typeName, inDeclaration, nameMustMatch).Some?
    ensures w.diagnostics == old(w.diagnostics) + Emitted(AliasReplacement(w.env, AliasesInScope(w), node, typeName, inDeclaration, nameMustMatch))
  {
    cached := symbol;
    if typeName !in Peek(w.aliasedSymbolNamesStack) {
      return false, cached;
    }
    cached := Resolve(w.env, node, cached);
    if cached.None? {
      return false, cached;
    }
    var alias := FindAliasInScopes(w, cached.value, node, typeName, inDeclaration, nameMustMatch);
    if alias.None? {
      return false, cached;
    }
    replaced := Report(w, AddAliasDiagnostic(node, alias.value, inDeclaration));
  }

  /** `TryReplaceWithPredefinedType`. */
  method TryReplaceWithPredefinedType(w: Walker, node: Syntax, typeName: string, inDeclaration: bool, parentIsUsingDirective: bool, symbol: Option<Symbol>)
    returns (replaced: bool, cached: Option<Symbol>)
    requires CacheAgrees(w.env, node, symbol)
    modifies w`diagnostics
    ensures CacheAgrees(w.env, node, cached)
    ensures replaced == PredefinedTypeReplacement(w.env, node, typeName, inDeclaration, parentIsUsingDirective).Some?
    ensures w.diagnostics == old(w.diagnostics) + Emitted(PredefinedTypeReplacement(w.env, node, typeName, inDeclaration, parentIsUsingDirective))
  {
    cached := symbol;
    if inDeclaration && !w.env.preferPredefinedTypeInDecl {
      return false, cached;
    }
    if !inDeclaration && !w.env.preferPredefinedTypeInMemberAccess {
      return false, cached;
    }
    if typeName in PredefinedTypeNames && !parentIsUsingDirective {
      cached := Resolve(w.env, node, cached);
      if cached.Some? && cached.value.NamedTypeSymbol? && cached.value.hasPredefinedKeyword {
        replaced := AddDiagnostic(w, Diagnostic(SpanOf(node), PreferBuiltInOrFrameworkType, inDeclaration));
        return;
      }
    }
    return false, cached;
  }

  /** `TryReplaceWithNullable`. */
  method TryReplaceWithNullable(w: Walker, node: Syntax, typeName: string, inDeclaration: bool, parentIsUsingDirective: bool, symbol: Option<Symbol>)
    returns (replaced: bool, cached: Option<Symbol>)
    requires CacheAgrees(w.env, node, symbol)
    modifies w`diagnostics
    ensures CacheAgrees(w.env, node, cached)
    ensures replaced == NullableReplacement(w.env, node, typeName, inDeclaration, parentIsUsingDirective).Some?
    ensures w.diagnostics == old(w.diagnostics) + Emitted(NullableReplacement(w.env, node, typeName, inDeclaration, parentIsUsingDirective))
  {
    cached := symbol;
    if inDeclaration && typeName == "Nullable" && !parentIsUsingDirective {
      cached := Resolve(w.env, node, cached);
      if cached.Some? && cached.value.NamedTypeSymbol? && cached.value.definitionIsNullable {
        replaced := AddDiagnostic(w, Diagnostic(SpanOf(node), SimplifyNames, inDeclaration));
        return;
      }
    }
    return false, cached;
  }

  /** `TryReplaceExprWithRightSide`. */
  method TryReplaceExprWithRightSide(w: Walker, root: Syntax, usingDirective: Option<UsingDirective>, identifier: string, left: Syntax, right: SimpleName, inDeclaration: bool, symbol: Option<Symbol>)
    returns (replaced: bool, cached: Option<Symbol>)
    requires CacheAgrees(w.env, root, symbol)
    modifies w`diagnostics
    ensures CacheAgrees(w.env, root, cached)
    ensures replaced == RightSideReplacement(w.env, root, usingDirective, identifier, left, right, inDeclaration).Some?
    ensures w.diagnostics == old(w.diagnostics) + Emitted(RightSideReplacement(w.env, root, usingDirective, identifier, left, right, inDeclaration))
  {
    cached := symbol;
    if identifier !in w.env.namesInScope(root) {
      return false, cached;
    }
    cached := Resolve(w.env, root, cached);
    if cached.None? {
      return false, cached;
    }
    if root.QualifiedName? && usingDirective.Some? {
      if cached.value.NamespaceSymbol? {
        return false, cached;
      }
      if usingDirective.value.isStatic {
        return false, cached;
      }
    }
    var foundSymbols := LookupName(w.env, root, inDeclaration, right.identifier);
    var found := ScanForDefinitionOf(foundSymbols, cached.value);
    if found {
      replaced := AddDiagnostic(w, Diagnostic(SpanOf(left), SimplifyNames, inDeclaration));
      return;
    }
    return false, cached;
  }

  /** `VisitIdentifierName`. */
  method VisitIdentifierName(w: Walker, n: SimpleName, ctx: Context)
    requires n.IdentifierName? && |w.aliasedSymbolNamesStack| > 0
    modifies w`diagnostics
    ensures w.diagnostics == old(w.diagnostics) + Emitted(IdentifierNameOutcome(w.env, AliasesInScope(w), n, ctx))
  {
    if !ctx.isRightSide {
      var node := Simple(n);
      var inDeclaration := w.env.inNamespaceOrTypeContext(node);
      ghost var predefined := PredefinedTypeReplacement(w.env, node, n.identifier, inDeclaration, ctx.parentIsUsingDirective);
      ghost var alias := AliasReplacement(w.env, AliasesInScope(w), node, n.identifier, inDeclaration, false);
      assert IdentifierNameOutcome(w.env, AliasesInScope(w), n, ctx) == FirstOf(predefined, alias);
      var symbol: Option<Symbol> := None;
      var replaced;
      replaced, symbol := TryReplaceWithPredefinedType(w, node, n.identifier, inDeclaration, ctx.parentIsUsingDirective, symbol);
      if replaced {
        return;
      }
      replaced, symbol := TryReplaceWithAlias(w, node, n.identifier, inDeclaration, false, symbol);
    }
  }

  /** `VisitGenericName`, up to visiting the type arguments: whether it reported. */
  method VisitGenericName(w: Walker, n: SimpleName, ctx: Context) returns (simplified: bool)
    requires n.GenericName? && |w.aliasedSymbolNamesStack| > 0
    modifies w`diagnostics
    ensures simplified == GenericNameOutcome(w.env, AliasesInScope(w), n, ctx).Some?
    ensures w.diagnostics == old(w.diagnostics) + Emitted(GenericNameOutcome(w.env, AliasesInScope(w), n, ctx))
  {
    simplified := false;
    if !ctx.isRightSide {
      var node := Simple(n);
      var inDeclaration := w.env.inNamespaceOrTypeContext(node);
      var symbol: Option<Symbol> := None;
      simplified, symbol := TryReplaceWithAlias(w, node, n.identifier, inDeclaration, false, symbol);
      if simplified {
        return;
      }
      simplified, symbol := TryReplaceWithNullable(w, node, n.identifier, inDeclaration, ctx.parentIsUsingDirective, symbol);
    }
  }

  /** `VisitQualifiedName`, up to the base visit of its children: whether it reported. */
  method VisitQualifiedName(w: Walker, node: Syntax, ctx: Context) returns (simplified: bool)
    requires node.QualifiedName? && |w.aliasedSymbolNamesStack| > 0
    modifies w`diagnostics
    ensures simplified == QualifiedNameOutcome(w.env, AliasesInScope(w), node, ctx).Some?
    ensures w.diagnostics == old(w.diagnostics) + Emitted(QualifiedNameOutcome(w.env, AliasesInScope(w), node, ctx))
  {
    var inDeclaration := w.env.inNamespaceOrTypeContext(node);
    var identifier := node.right.identifier;
    var symbol: Option<Symbol> := None;
    simplified, symbol := TryReplaceWithPredefinedType(w, node, identifier, inDeclaration, ctx.parentIsUsingDirective, symbol);
    if simplified {
      return;
    }
    simplified := QualifiedNameAfterPredefined(w, node, ctx, inDeclaration, symbol);
  }

  /** The rest of `VisitQualifiedName`, once no predefined type applies: an alias, else `T?`, else the right side. */
  method QualifiedNameAfterPredefined(w: Walker, node: Syntax, ctx: Context, inDeclaration: bool, symbol: Option<Symbol>) returns (simplified: bool)
    requires node.QualifiedName? && |w.aliasedSymbolNamesStack| > 0 && CacheAgrees(w.env, node, symbol)
    modifies w`diagnostics
    ensures var d := FirstOf(AliasReplacement(w.env, AliasesInScope(w), node, node.right.identifier, inDeclaration, false),
                     FirstOf(NullableReplacement(w.env, node, node.right.identifier, inDeclaration, ctx.parentIsUsingDirective),
                             RightSideReplacement(w.env, node, ctx.usingDirective, node.right.identifier, node.left, node.right, inDeclaration)));
            simplified == d.Some? && w.diagnostics == old(w.diagnostics) + Emitted(d)
  {
    var identifier := node.right.identifier;
    var symbol := symbol;
    simplified, symbol := TryReplaceWithAlias(w, node, identifier, inDeclaration, false, symbol);
    if simplified {
      return;
    }
    simplified, symbol := TryReplaceWithNullable(w, node, identifier, inDeclaration, ctx.parentIsUsingDirective, symbol);
    if simplified {
      return;
    }
    simplified, symbol := TryReplaceExprWithRightSide(w, node, ctx.usingDirective, identifier, node.left, node.right, inDeclaration, symbol);
  }

  /** `VisitAliasQualifiedName`, up to visiting its name: whether it reported. */
  method VisitAliasQualifiedName(w: Walker, node: Syntax, ctx: Context) returns (simplified: bool)
    requires node.AliasQualifiedName? && |w.aliasedSymbolNamesStack| > 0
    modifies w`diagnostics
    ensures simplified == AliasQualifiedNameOutcome(w.env, AliasesInScope(w), node, ctx).Some?
    ensures w.diagnostics == old(w.diagnostics) + Emitted(AliasQualifiedNameOutcome(w.env, AliasesInScope(w), node, ctx))
  {
    var inDeclaration := w.env.inNamespaceOrTypeContext(node);
    var identifier := node.name.identifier;
    var symbol: Option<Symbol> := None;
    simplified, symbol := TryReplaceWithPredefinedType(w, node, identifier, inDeclaration, ctx.parentIsUsingDirective, symbol);
    if simplified {
      return;
    }
    simplified := AliasQualifiedNameAfterPredefined(w, node, ctx, inDeclaration, symbol);
  }

  /** The rest of `VisitAliasQualifiedName`, once no predefined type applies: an alias, else the name without `X::`. */
  method AliasQualifiedNameAfterPredefined(w: Walker, node: Syntax, ctx: Context, inDeclaration: bool, symbol: Option<Symbol>) returns (simplified: bool)
    requires node.AliasQualifiedName? && |w.aliasedSymbolNamesStack| > 0 && CacheAgrees(w.env, node, symbol)
    modifies w`diagnostics
    ensures var d := FirstOf(AliasReplacement(w.env, AliasesInScope(w), node, node.name.identifier, inDeclaration, false),
                             RightSideReplacement(w.env, node, ctx.usingDirective, node.name.identifier,
                                                  Simple(IdentifierName(node.aliasSpan, node.alias)), node.name, inDeclaration));
            simplified == d.Some? && w.diagnostics == old(w.diagnostics) + Emitted(d)
  {
    var identifier := node.name.identifier;
    var symbol := symbol;
    simplified, symbol := TryReplaceWithAlias(w, node, identifier, inDeclaration, false, symbol);
    if simplified {
      return;
    }
    simplified, symbol := TryReplaceExprWithRightSide(w, node, ctx.usingDirective, identifier, Simple(IdentifierName(node.aliasSpan, node.alias)), node.name, inDeclaration, symbol);
  }

  /** `SimplifyMemberAccessInNameofExpression`. */
  method SimplifyMemberAccessInNameofExpression(w: Walker, node: Syntax) returns (simplified: bool)
    requires node.SimpleMemberAccess? && |w.aliasedSymbolNamesStack| > 0
    modifies w`diagnostics
    ensures simplified == NameofOutcome(w.env, AliasesInScope(w), node).Some?
    ensures w.diagnostics == old(w.diagnostics) + Emitted(NameofOutcome(w.env, AliasesInScope(w), node))
  {
    var symbol: Option<Symbol> := None;
    var memberName := node.name.identifier;
    simplified, symbol := TryReplaceWithAlias(w, node, memberName, false, true, symbol);
    if simplified {
      return;
    }
    simplified, symbol := TryReplaceExprWithRightSide(w, node, None, memberName, node.expression, node.name, false, symbol);
  }

  /** `SimplifyExpressionOfMemberAccessExpression`. */
  method SimplifyExpressionOfMemberAccessExpression(w: Walker, expression: Syntax) returns (simplified: bool)
    requires GetRightmostName(expression).Some? && |w.aliasedSymbolNamesStack| > 0
    modifies w`diagnostics
    ensures simplified == ExpressionOutcome(w.env, AliasesInScope(w), expression).Some?
    ensures w.diagnostics == old(w.diagnostics) + Emitted(ExpressionOutcome(w.env, AliasesInScope(w), expression))
  {
    var identifier := GetRightmostName(expression).value.identifier;
    var symbol: Option<Symbol> := None;
    simplified, symbol := TryReplaceWithPredefinedType(w, expression, identifier, false, false, symbol);
    if simplified {
      return;
    }
    simplified, symbol := TryReplaceWithAlias(w, expression, identifier, false, false, symbol);
    if simplified {
      return;
    }
    var parts := TryGetPartsOfQualifiedName(expression);
    if parts.Some? {
      simplified, symbol := TryReplaceExprWithRightSide(w, expression, None, identifier, parts.value.0, parts.value.1, false, symbol);
    }
  }

  /** `VisitMemberAccessExpression`, up to the base visit of its children: whether it reported. */
  method VisitMemberAccessExpression(w: Walker, node: Syntax) returns (simplified: bool)
    requires node.SimpleMemberAccess? && |w.aliasedSymbolNamesStack| > 0
    modifies w`diagnostics
    ensures simplified == MemberAccessOutcome(w.env, AliasesInScope(w), node).Some?
    ensures w.diagnostics == old(w.diagnostics) + Emitted(MemberAccessOutcome(w.env, AliasesInScope(w), node))
  {
    simplified := false;
    var simplifiable := IsSimplifiableMemberAccess(node);
    if simplifiable {
      SimplifiableHasRightmostName(node);
      if w.env.isNameOfArgumentExpression(node) {
        simplified := SimplifyMemberAccessInNameofExpression(w, node);
        if simplified {
          return;
        }
      }
      simplified := SimplifyExpressionOfMemberAccessExpression(w, node.expression);
    }
  }

  /**
   * The syntax walker's visit of an expression or name: the override for its
   * shape, then, unless that reported, its children.
   */
  method VisitSyntax(w: Walker, node: Syntax, ctx: Context)
    requires |w.aliasedSymbolNamesStack| > 0
    modifies w`diagnostics
    ensures w.diagnostics == old(w.diagnostics) + SyntaxDiagnostics(w.env, AliasesInScope(w), node, ctx)
    decreases node, 1
  {
    match node
    case Simple(n) =>
      VisitSimpleName(w, n, ctx);
    case QualifiedName(_, _, _) =>
      VisitQualifiedNameNode(w, node, ctx);
    case AliasQualifiedName(_, _, _, name) =>
      var simplified := VisitAliasQualifiedName(w, node, ctx);
      if !simplified {
        VisitSimpleName(w, name, Context(true, false, None));
      }
    case SimpleMemberAccess(_, _, _) =>
      VisitMemberAccessNode(w, node, ctx);
    case OtherExpression(_, children) =>
      VisitList(w, children);
  }

  /** A qualified name: its own visit, then, unless that reported, `left` and `right`. */
  method VisitQualifiedNameNode(w: Walker, node: Syntax, ctx: Context)
    requires node.QualifiedName? && |w.aliasedSymbolNamesStack| > 0
    modifies w`diagnostics
    ensures w.diagnostics == old(w.diagnostics) + SyntaxDiagnostics(w.env, AliasesInScope(w), node, ctx)
    decreases node, 0
  {
    var simplified := VisitQualifiedName(w, node, ctx);
    if !simplified {
      VisitSyntax(w, node.left, Context(false, false, ctx.usingDirective));
      VisitSimpleName(w, node.right, Context(true, false, ctx.usingDirective));
    }
  }

  /** A member access: its own visit, then, unless that reported, the expression and the name. */
  method VisitMemberAccessNode(w: Walker, node: Syntax, ctx: Context)
    requires node.SimpleMemberAccess? && |w.aliasedSymbolNamesStack| > 0
    modifies w`diagnostics
    ensures w.diagnostics == old(w.diagnostics) + SyntaxDiagnostics(w.env, AliasesInScope(w), node, ctx)
    decreases node, 0
  {
    var simplified := VisitMemberAccessExpression(w, node);
    if !simplified {
      VisitSyntax(w, node.expression, Inside);
      VisitSimpleName(w, node.name, Context(true, false, None));
    }
  }

  method VisitSimpleName(w: Walker, n: SimpleName, ctx: Context)
    requires |w.aliasedSymbolNamesStack| > 0
    modifies w`diagnostics
    ensures w.diagnostics == old(w.diagnostics) + NameDiagnostics(w.env, AliasesInScope(w), n, ctx)
    decreases n, 1
  {
    match n
    case IdentifierName(_, _) =>
      VisitIdentifierName(w, n, ctx);
    case GenericName(_, _, typeArguments) =>
      var simplified := VisitGenericName(w, n, ctx);
      if !simplified {
        VisitList(w, typeArguments);
      }
  }

  method VisitList(w: Walker, nodes: seq<Syntax>)
    requires |w.aliasedSymbolNamesStack| > 0
    modifies w`diagnostics
    ensures w.diagnostics == old(w.diagnostics) + ListDiagnostics(w.env, AliasesInScope(w), nodes)
    decreases nodes, 1
  {
    if nodes != [] {
      VisitSyntax(w, nodes[0], Inside);
      VisitList(w, nodes[1..]);
    }
  }
}
