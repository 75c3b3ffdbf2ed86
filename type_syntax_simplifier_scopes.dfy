/**
 * `TypeSyntaxSimplifierWalker`, its state and its scopes.
 *
 * The walker visits a C# syntax tree and reports the type and namespace names
 * that can be written shorter. Where it is in the tree is kept as four
 * parallel stacks:
 *  - `aliasStack`: per namespace context, the alias each `using X = ...;`
 *    gives a namespace or type;
 *  - `aliasedSymbolNamesStack`: per namespace context, the names of every
 *    symbol aliased in it or in an enclosing context (a quick filter before
 *    the alias stack is searched);
 *  - `declarationNamesInScopeStack` and `staticNamesInScopeStack`: per
 *    namespace context and per type declaration, the names of the
 *    namespaces and types, and of the static members, in scope there.
 *
 * Syntax is given as small datatypes and the semantic model as functions on
 * them (symbol information for a node and the look-ups at a position).
 */
module TypeSyntaxSimplifierScopes {

  datatype Option<T> = None | Some(value: T)

  /** A node's `Span`: the positions where it starts and ends. */
  datatype Span = Span(start: int, end: int)

  /** `SimpleNameSyntax`: `IdentifierNameSyntax` or `GenericNameSyntax`. */
  datatype SimpleName =
    | IdentifierName(span: Span, identifier: string)
    | GenericName(span: Span, identifier: string, typeArguments: seq<Syntax>)

  /**
   * The expression and type syntax the walker inspects: a simple name,
   * `A.B` as a `QualifiedNameSyntax`, `X::B` (an alias, which is an
   * identifier, then a name), `A.B` as a `MemberAccessExpressionSyntax` of kind
   * `SimpleMemberAccessExpression`, and any other expression with its
   * sub-expressions.
   */
  datatype Syntax =
    | Simple(name: SimpleName)
    | QualifiedName(span: Span, left: Syntax, right: SimpleName)
    | AliasQualifiedName(span: Span, aliasSpan: Span, alias: string, name: SimpleName)
    | SimpleMemberAccess(span: Span, expression: Syntax, name: SimpleName)
    | OtherExpression(span: Span, children: seq<Syntax>)

  function SpanOf(e: Syntax): Span
  {
    match e
    case Simple(n) => n.span
    case QualifiedName(span, _, _) => span
    case AliasQualifiedName(span, _, _, _) => span
    case SimpleMemberAccess(span, _, _) => span
    case OtherExpression(span, _) => span
  }

  /**
   * A symbol the semantic model gives: a namespace, a named type (with the
   * identity of its original definition, whether its special type has a
   * predefined keyword such as `int`, and whether its original definition is
   * `System.Nullable<T>`), an alias with its target, or anything else.
   */
  datatype Symbol =
    | NamespaceSymbol(name: string, id: nat)
    | NamedTypeSymbol(name: string, id: nat, definition: nat, hasPredefinedKeyword: bool, definitionIsNullable: bool)
    | AliasSymbol(name: string, target: Symbol)
    | OtherSymbol(name: string, id: nat)

  /** `is INamespaceOrTypeSymbol`. */
  predicate IsNamespaceOrType(s: Symbol)
  {
    s.NamespaceSymbol? || s.NamedTypeSymbol?
  }

  /** `SymbolInfo`: the bound symbol, if any, and how many candidate symbols an ambiguous binding left. */
  datatype SymbolInfo = SymbolInfo(symbol: Option<Symbol>, candidateCount: nat)

  /** `UsingDirectiveSyntax`: `using [static] [Alias =] Name;`. */
  datatype UsingDirective = UsingDirective(span: Span, isStatic: bool, alias: Option<string>, name: Syntax)

  /** The semantic model's answers the walker asks for. */
  datatype SemanticModel = SemanticModel(
    getSymbolInfo: Syntax -> SymbolInfo,
    /** `LookupNamespacesAndTypes(position, name)`; `None` looks up every name. */
    lookupNamespacesAndTypes: (int, Option<string>) -> seq<Symbol>,
    /** `LookupSymbols(position, name)`. */
    lookupSymbols: (int, string) -> seq<Symbol>,
    /** `LookupStaticMembers(position)`. */
    lookupStaticMembers: int -> seq<Symbol>)

  /**
   * What the walker is given when it is created: the semantic model, the two
   * "prefer predefined type keyword" options (in declarations, in member
   * access), and the two syntax facts it asks of a node without walking
   * up to its parents: `SyntaxFacts.IsInNamespaceOrTypeContext` and
   * `IsNameOfArgumentExpression`. `namesInScope` stands for the top of the
   * names-in-scope stack that the right-side reduction consults, at the node
   * being reduced.
   */
  datatype Environment = Environment(
    semanticModel: SemanticModel,
    preferPredefinedTypeInDecl: bool,
    preferPredefinedTypeInMemberAccess: bool,
    inNamespaceOrTypeContext: Syntax -> bool,
    isNameOfArgumentExpression: Syntax -> bool,
    namesInScope: Syntax -> set<string>)

  datatype DiagnosticId = SimplifyNames | PreferBuiltInOrFrameworkType

  /** A reported diagnostic: the span to simplify, its id, and whether it is in a declaration. */
  datatype Diagnostic = Diagnostic(span: Span, id: DiagnosticId, inDeclaration: bool)

  // ---- Stacks ----

  /** `Peek`: the top of a stack, its last element. */
  function Peek<T>(stack: seq<T>): (top: T)
    requires |stack| > 0
    ensures Pop(stack) + [top] == stack
  {
    stack[|stack| - 1]
  }

  /** `Pop`: the stack without its last element; everything below stays as it was. */
  function Pop<T>(stack: seq<T>): (rest: seq<T>)
    requires |stack| > 0
    ensures |rest| == |stack| - 1
    ensures forall i :: 0 <= i < |rest| ==> rest[i] == stack[i]
  {
    stack[..|stack| - 1]
  }

  /** A push is undone by a pop, and `Peek` sees what was pushed. */
  lemma PopUndoesPush<T>(stack: seq<T>, x: T)
    ensures Peek(stack + [x]) == x
    ensures Pop(stack + [x]) == stack
  {
    assert Pop(stack + [x]) == (stack + [x])[..|stack|];
  }

  // ---- AddAliases ----

  /**
   * The symbol a using directive aliases, when it is recorded: the directive
   * has an alias, its name binds without candidate symbols, and it binds to
   * a namespace or type.
   */
  function ResolvedAlias(sm: SemanticModel, u: UsingDirective): (r: Option<Symbol>)
    ensures r.Some? <==>
              && u.alias.Some?
              && sm.getSymbolInfo(u.name).candidateCount == 0
              && sm.getSymbolInfo(u.name).symbol.Some?
              && IsNamespaceOrType(sm.getSymbolInfo(u.name).symbol.value)
    ensures r.Some? ==> r == sm.getSymbolInfo(u.name).symbol
  {
    if u.alias.None? then None
    else
      var info := sm.getSymbolInfo(u.name);
      if info.candidateCount > 0 then None
      else if info.symbol.Some? && IsNamespaceOrType(info.symbol.value) then info.symbol
      else None
  }

  /** An alias map records the name of each symbol it aliases. */
  predicate NamesCoverAliases(aliasMap: map<Symbol, string>, names: set<string>)
  {
    forall s :: s in aliasMap ==> s.name in names
  }

  /**
   * The alias map and aliased-symbol names after `usings` are added to
   * `aliasMap` and `names`, one directive after the other: a recorded alias
   * overwrites any earlier alias of the same symbol, and the symbol's name
   * joins the names. The result keeps every name, covers the new aliases'
   * names, and aliases only symbols already aliased or recorded from a
   * directive.
   */
  function AliasesOf(sm: SemanticModel, aliasMap: map<Symbol, string>, names: set<string>, usings: seq<UsingDirective>)
    : (r: (map<Symbol, string>, set<string>))
    ensures names <= r.1
    ensures NamesCoverAliases(aliasMap, names) ==> NamesCoverAliases(r.0, r.1)
    ensures forall s :: s in r.0 ==> s in aliasMap || exists k :: 0 <= k < |usings| && ResolvedAlias(sm, usings[k]) == Some(s)
    decreases |usings|
  {
    if usings == [] then (aliasMap, names)
    else
      var resolved := ResolvedAlias(sm, usings[0]);
      var r := if resolved.Some?
               then AliasesOf(sm, aliasMap[resolved.value := usings[0].alias.value], names + {resolved.value.name}, usings[1..])
               else AliasesOf(sm, aliasMap, names, usings[1..]);
      assert forall s :: s in r.0 ==> s in aliasMap || resolved == Some(s) || exists k :: 1 <= k < |usings| && ResolvedAlias(sm, usings[k]) == Some(s) by {
        forall s | s in r.0 && !(s in aliasMap) && resolved != Some(s)
          ensures exists k :: 1 <= k < |usings| && ResolvedAlias(sm, usings[k]) == Some(s)
        {
          var k :| 0 <= k < |usings[1..]| && ResolvedAlias(sm, usings[1..][k]) == Some(s);
          assert usings[1..][k] == usings[k + 1];
        }
      }
      r
  }

  /**
   * The last directive that aliases a symbol decides its alias: if directive
   * `k` aliases `s` and no later one does, `s` ends up with directive `k`'s
   * alias.
   */
  lemma {:induction false} LastAliasWins(sm: SemanticModel, aliasMap: map<Symbol, string>, names: set<string>, usings: seq<UsingDirective>, k: nat, s: Symbol)
    requires k < |usings| && ResolvedAlias(sm, usings[k]) == Some(s)
    requires forall j :: k < j < |usings| ==> ResolvedAlias(sm, usings[j]) != Some(s)
    ensures s in AliasesOf(sm, aliasMap, names, usings).0
    ensures AliasesOf(sm, aliasMap, names, usings).0[s] == usings[k].alias.value
    decreases |usings|
  {
    var resolved := ResolvedAlias(sm, usings[0]);
    var m := if resolved.Some? then aliasMap[resolved.value := usings[0].alias.value] else aliasMap;
    var n := if resolved.Some? then names + {resolved.value.name} else names;
    assert AliasesOf(sm, aliasMap, names, usings) == AliasesOf(sm, m, n, usings[1..]);
    if k == 0 {
      assert s in m && m[s] == usings[0].alias.value;
      AliasUntouched(sm, m, n, usings[1..], s);
    } else {
      forall j | k - 1 < j < |usings[1..]|
        ensures ResolvedAlias(sm, usings[1..][j]) != Some(s)
      {
        assert usings[1..][j] == usings[j + 1];
      }
      assert usings[1..][k - 1] == usings[k];
      LastAliasWins(sm, m, n, usings[1..], k - 1, s);
    }
  }

  /** A symbol that no directive aliases keeps the alias it had. */
  lemma {:induction false} AliasUntouched(sm: SemanticModel, aliasMap: map<Symbol, string>, names: set<string>, usings: seq<UsingDirective>, s: Symbol)
    requires s in aliasMap
    requires forall j :: 0 <= j < |usings| ==> ResolvedAlias(sm, usings[j]) != Some(s)
    ensures s in AliasesOf(sm, aliasMap, names, usings).0
    ensures AliasesOf(sm, aliasMap, names, usings).0[s] == aliasMap[s]
    decreases |usings|
  {
    if usings != [] {
      var resolved := ResolvedAlias(sm, usings[0]);
      var m := if resolved.Some? then aliasMap[resolved.value := usings[0].alias.value] else aliasMap;
      var n := if resolved.Some? then names + {resolved.value.name} else names;
      forall j | 0 <= j < |usings[1..]|
        ensures ResolvedAlias(sm, usings[1..][j]) != Some(s)
      {
        assert usings[1..][j] == usings[j + 1];
      }
      AliasUntouched(sm, m, n, usings[1..], s);
    }
  }

  /** Every recorded directive's symbol name is among the aliased-symbol names. */
  lemma {:induction false} RecordedNamesAreAdded(sm: SemanticModel, aliasMap: map<Symbol, string>, names: set<string>, usings: seq<UsingDirective>, k: nat)
    requires k < |usings| && ResolvedAlias(sm, usings[k]).Some?
    ensures ResolvedAlias(sm, usings[k]).value.name in AliasesOf(sm, aliasMap, names, usings).1
    decreases |usings|
  {
    var resolved := ResolvedAlias(sm, usings[0]);
    var m := if resolved.Some? then aliasMap[resolved.value := usings[0].alias.value] else aliasMap;
    var n := if resolved.Some? then names + {resolved.value.name} else names;
    if k > 0 {
      assert usings[1..][k - 1] == usings[k];
      RecordedNamesAreAdded(sm, m, n, usings[1..], k - 1);
    }
  }

  /** The names a set of symbols goes by. */
  function NamesOf(symbols: seq<Symbol>): (names: set<string>)
    ensures forall i :: 0 <= i < |symbols| ==> symbols[i].name in names
    ensures forall x :: x in names ==> exists i :: 0 <= i < |symbols| && symbols[i].name == x
  {
    set s | s in symbols :: s.name
  }

  /** The names every enclosing scope inherits: the top set, or none at the outermost level. */
  function Inherited(stack: seq<set<string>>): set<string>
  {
    if |stack| > 0 then Peek(stack) else {}
  }

  /**
   * Each alias scope's names include the enclosing scope's names and the
   * names of the symbols it aliases itself.
   */
  predicate AliasScopesNested(aliasStack: seq<map<Symbol, string>>, namesStack: seq<set<string>>)
  {
    && |aliasStack| == |namesStack|
    && (forall i :: 0 < i < |namesStack| ==> namesStack[i - 1] <= namesStack[i])
    && (forall i :: 0 <= i < |aliasStack| ==> NamesCoverAliases(aliasStack[i], namesStack[i]))
  }

  /**
   * Why the quick filter is sound: in nested alias scopes the top names set
   * holds the name of every symbol aliased in any scope on the stack.
   */
  lemma {:induction false} TopNamesCoverEveryScope(aliasStack: seq<map<Symbol, string>>, namesStack: seq<set<string>>, i: nat, s: Symbol)
    requires AliasScopesNested(aliasStack, namesStack)
    requires i < |aliasStack| && s in aliasStack[i]
    ensures s.name in Peek(namesStack)
  {
    var j := i;
    while j < |namesStack| - 1
      invariant i <= j < |namesStack|
      invariant s.name in namesStack[j]
    {
      assert namesStack[j] <= namesStack[j + 1];
      j := j + 1;
    }
  }

  /**
   * The walker's state. The methods here are the scope operations; the name
   * visits are in `TypeSyntaxSimplifierBinding` and the walk over
   * declarations in `TypeSyntaxSimplifierWalk`.
   */
  class Walker {
    const env: Environment
    var aliasStack: seq<map<Symbol, string>>
    var aliasedSymbolNamesStack: seq<set<string>>
    var declarationNamesInScopeStack: seq<set<string>>
    var staticNamesInScopeStack: seq<set<string>>
    var inCref: bool
    /** The public `Diagnostics` list. */
    var diagnostics: seq<Diagnostic>
    /** Whether `Dispose` has handed the four stacks back to their pools. */
    var stacksFreed: bool

    /**
     * The alias stacks move together and so do the two names-in-scope
     * stacks; alias scopes are nested.
     */
    ghost predicate Valid()
      reads this
    {
      && |declarationNamesInScopeStack| == |staticNamesInScopeStack|
      && AliasScopesNested(aliasStack, aliasedSymbolNamesStack)
    }

    /** The constructor: empty stacks (allocated from their pools), no diagnostics, not in a cref. */
    constructor (env: Environment)
      ensures Valid() && this.env == env
      ensures aliasStack == [] && aliasedSymbolNamesStack == []
      ensures declarationNamesInScopeStack == [] && staticNamesInScopeStack == []
      ensures !inCref && diagnostics == [] && !stacksFreed
    {
      this.env := env;
      aliasStack := [];
      aliasedSymbolNamesStack := [];
      declarationNamesInScopeStack := [];
      staticNamesInScopeStack := [];
      inCref := false;
      diagnostics := [];
      stacksFreed := false;
    }

    /**
     * `AddAliases`: into a fresh alias map and names set, the names of the
     * enclosing alias scope, then the alias of each using directive that
     * resolves unambiguously to a namespace or type.
     */
    method AddAliases(usings: seq<UsingDirective>) returns (aliasMap: map<Symbol, string>, aliasedSymbolNames: set<string>)
      ensures (aliasMap, aliasedSymbolNames) == AliasesOf(env.semanticModel, map[], Inherited(aliasedSymbolNamesStack), usings)
      ensures |aliasedSymbolNamesStack| > 0 ==> Peek(aliasedSymbolNamesStack) <= aliasedSymbolNames
      ensures NamesCoverAliases(aliasMap, aliasedSymbolNames)
    {
      aliasMap := map[];
      aliasedSymbolNames := {};
      if |aliasedSymbolNamesStack| > 0 {
        aliasedSymbolNames := aliasedSymbolNames + Peek(aliasedSymbolNamesStack);
      }
      assert aliasedSymbolNames == Inherited(aliasedSymbolNamesStack);
      assert usings[0..] == usings;
      for i := 0 to |usings|
        invariant AliasesOf(env.semanticModel, aliasMap, aliasedSymbolNames, usings[i..])
               == AliasesOf(env.semanticModel, map[], Inherited(aliasedSymbolNamesStack), usings)
      {
        var u := usings[i];
        assert usings[i..][0] == u && usings[i..][1..] == usings[i + 1..];
        if u.alias.Some? {
          var info := env.semanticModel.getSymbolInfo(u.name);
          if info.candidateCount > 0 {
            continue;
          }
          if info.symbol.Some? && IsNamespaceOrType(info.symbol.value) {
            var symbol := info.symbol.value;
            aliasMap := aliasMap[symbol := u.alias.value];
            aliasedSymbolNames := aliasedSymbolNames + {symbol.name};
          }
        }
      }
      assert usings[|usings|..] == [];
    }

    /** `AddNamesInScope`: the names of the namespaces and types, and of the static members, in scope at `position`. */
    method AddNamesInScope(position: int) returns (declarationNames: set<string>, staticNames: set<string>)
      ensures declarationNames == NamesOf(env.semanticModel.lookupNamespacesAndTypes(position, None))
      ensures staticNames == NamesOf(env.semanticModel.lookupStaticMembers(position))
    {
      var declarationSymbols := env.semanticModel.lookupNamespacesAndTypes(position, None);
      declarationNames := {};
      for i := 0 to |declarationSymbols|
        invariant declarationNames == NamesOf(declarationSymbols[..i])
      {
        assert declarationSymbols[..i + 1] == declarationSymbols[..i] + [declarationSymbols[i]];
        declarationNames := declarationNames + {declarationSymbols[i].name};
      }
      assert declarationSymbols[..|declarationSymbols|] == declarationSymbols;
      var staticSymbols := env.semanticModel.lookupStaticMembers(position);
      staticNames := {};
      for i := 0 to |staticSymbols|
        invariant staticNames == NamesOf(staticSymbols[..i])
      {
        assert staticSymbols[..i + 1] == staticSymbols[..i] + [staticSymbols[i]];
        staticNames := staticNames + {staticSymbols[i].name};
      }
      assert staticSymbols[..|staticSymbols|] == staticSymbols;
    }

    /**
     * The entry half of `EnterNamespaceContext`: one new scope on each of the
     * four stacks, the alias scope built by `AddAliases` and the
     * names-in-scope sets by `AddNamesInScope` at `position`.
     */
    method PushNamespaceScope(usings: seq<UsingDirective>, position: int)
      requires Valid()
      modifies this`aliasStack, this`aliasedSymbolNamesStack, this`declarationNamesInScopeStack, this`staticNamesInScopeStack
      ensures Valid()
      ensures |aliasStack| == |old(aliasStack)| + 1 && |declarationNamesInScopeStack| == |old(declarationNamesInScopeStack)| + 1
      ensures Pop(aliasStack) == old(aliasStack) && Pop(aliasedSymbolNamesStack) == old(aliasedSymbolNamesStack)
      ensures Pop(declarationNamesInScopeStack) == old(declarationNamesInScopeStack)
      ensures Pop(staticNamesInScopeStack) == old(staticNamesInScopeStack)
      ensures (Peek(aliasStack), Peek(aliasedSymbolNamesStack))
           == AliasesOf(env.semanticModel, map[], Inherited(old(aliasedSymbolNamesStack)), usings)
      ensures Peek(declarationNamesInScopeStack) == NamesOf(env.semanticModel.lookupNamespacesAndTypes(position, None))
      ensures Peek(staticNamesInScopeStack) == NamesOf(env.semanticModel.lookupStaticMembers(position))
    {
      var aliases, aliasedSymbolNames := AddAliases(usings);
      var declarationNamesInScope, staticNamesInScope := AddNamesInScope(position);
      PopUndoesPush(aliasStack, aliases);
      PopUndoesPush(aliasedSymbolNamesStack, aliasedSymbolNames);
      PopUndoesPush(declarationNamesInScopeStack, declarationNamesInScope);
      PopUndoesPush(staticNamesInScopeStack, staticNamesInScope);
      aliasStack := aliasStack + [aliases];
      aliasedSymbolNamesStack := aliasedSymbolNamesStack + [aliasedSymbolNames];
      declarationNamesInScopeStack := declarationNamesInScopeStack + [declarationNamesInScope];
      staticNamesInScopeStack := staticNamesInScopeStack + [staticNamesInScope];
    }

    /** The exit half of `EnterNamespaceContext`: one scope popped off each of the four stacks. */
    method PopNamespaceScope()
      requires Valid() && |aliasStack| > 0 && |declarationNamesInScopeStack| > 0
      modifies this`aliasStack, this`aliasedSymbolNamesStack, this`declarationNamesInScopeStack, this`staticNamesInScopeStack
      ensures Valid()
      ensures aliasStack == Pop(old(aliasStack)) && aliasedSymbolNamesStack == Pop(old(aliasedSymbolNamesStack))
      ensures declarationNamesInScopeStack == Pop(old(declarationNamesInScopeStack))
      ensures staticNamesInScopeStack == Pop(old(staticNamesInScopeStack))
    {
      aliasStack := Pop(aliasStack);
      aliasedSymbolNamesStack := Pop(aliasedSymbolNamesStack);
      declarationNamesInScopeStack := Pop(declarationNamesInScopeStack);
      staticNamesInScopeStack := Pop(staticNamesInScopeStack);
    }

    /**
     * The entry half of `VisitTypeDeclaration`: a new scope on the two
     * names-in-scope stacks only; the alias stacks are left alone.
     */
    method PushTypeScope(position: int)
      requires Valid()
      modifies this`declarationNamesInScopeStack, this`staticNamesInScopeStack
      ensures Valid()
      ensures |declarationNamesInScopeStack| == |old(declarationNamesInScopeStack)| + 1
      ensures Pop(declarationNamesInScopeStack) == old(declarationNamesInScopeStack)
      ensures Pop(staticNamesInScopeStack) == old(staticNamesInScopeStack)
      ensures Peek(declarationNamesInScopeStack) == NamesOf(env.semanticModel.lookupNamespacesAndTypes(position, None))
      ensures Peek(staticNamesInScopeStack) == NamesOf(env.semanticModel.lookupStaticMembers(position))
    {
      var declarationNamesInScope, staticNamesInScope := AddNamesInScope(position);
      PopUndoesPush(declarationNamesInScopeStack, declarationNamesInScope);
      PopUndoesPush(staticNamesInScopeStack, staticNamesInScope);
      declarationNamesInScopeStack := declarationNamesInScopeStack + [declarationNamesInScope];
      staticNamesInScopeStack := staticNamesInScopeStack + [staticNamesInScope];
    }

    /** The exit half of `VisitTypeDeclaration`: one scope popped off each names-in-scope stack. */
    method PopTypeScope()
      requires Valid() && |declarationNamesInScopeStack| > 0
      modifies this`declarationNamesInScopeStack, this`staticNamesInScopeStack
      ensures Valid()
      ensures declarationNamesInScopeStack == Pop(old(declarationNamesInScopeStack))
      ensures staticNamesInScopeStack == Pop(old(staticNamesInScopeStack))
    {
      declarationNamesInScopeStack := Pop(declarationNamesInScopeStack);
      staticNamesInScopeStack := Pop(staticNamesInScopeStack);
    }

    /** The entry half of `VisitXmlCrefAttribute`: remember whether the walker was in a cref, and now it is. */
    method EnterCref() returns (savedInCref: bool)
      modifies this`inCref
      ensures savedInCref == old(inCref) && inCref
    {
      savedInCref := inCref;
      inCref := true;
    }

    /** The exit half of `VisitXmlCrefAttribute`: `inCref` is restored. */
    method ExitCref(savedInCref: bool)
      modifies this`inCref
      ensures inCref == savedInCref
    {
      inCref := savedInCref;
    }

    /**
     * `Dispose`: each of the four stacks is cleared and handed back to its
     * pool; the diagnostics stay.
     */
    method Dispose()
      modifies this
      ensures aliasStack == [] && aliasedSymbolNamesStack == []
      ensures declarationNamesInScopeStack == [] && staticNamesInScopeStack == []
      ensures stacksFreed && Valid()
      ensures diagnostics == old(diagnostics) && inCref == old(inCref)
    {
      aliasStack := [];
      aliasedSymbolNamesStack := [];
      declarationNamesInScopeStack := [];
      staticNamesInScopeStack := [];
      stacksFreed := true;
    }
  }
}
