/**
 * `TypeSyntaxSimplifierWalker`, the declaration visits: a compilation unit
 * and each namespace open a scope on all four stacks, each class, struct,
 * interface or enum opens one on the two names-in-scope stacks, and a cref
 * attribute is visited with the cref flag set. Each visit closes what it
 * opened, so it leaves the stacks and the flag as it found them; what it
 * adds to the diagnostics is stated by `MemberDiagnostics`, in terms of the
 * alias scopes in force around it.
 */
module TypeSyntaxSimplifierWalk {
  import opened TypeSyntaxSimplifierScopes
  import opened TypeSyntaxSimplifierBinding

  datatype TypeKind = Class | Struct | Interface | Enum

  /** The declarations the walker opens scopes for, and the names it visits inside them. */
  datatype Member =
    | NamespaceDeclaration(name: Syntax, usings: seq<UsingDirective>, openBraceEnd: int, members: seq<Member>)
    | TypeDeclaration(kind: TypeKind, openBraceEnd: int, members: seq<Member>)
    | XmlCrefAttribute(cref: Syntax)
    | TypeOccurrence(syntax: Syntax)

  datatype CompilationUnit = CompilationUnit(
    firstAttributeListStart: Option<int>,
    usings: seq<UsingDirective>,
    endOfFileStart: int,
    members: seq<Member>)

  /** Where a compilation unit's names are looked up: its first attribute list, else its first using, else the end of the file. */
  function CompilationUnitPosition(cu: CompilationUnit): int
  {
    if cu.firstAttributeListStart.Some? then cu.firstAttributeListStart.value
    else if |cu.usings| > 0 then cu.usings[0].span.start
    else cu.endOfFileStart
  }

  /** The alias stack and aliased-names stack inside a new namespace scope. */
  function Pushed(env: Environment, aliasStack: seq<map<Symbol, string>>, namesStack: seq<set<string>>, usings: seq<UsingDirective>)
    : (r: (seq<map<Symbol, string>>, seq<set<string>>))
    ensures |r.0| == |aliasStack| + 1 && |r.1| == |namesStack| + 1
    ensures Pop(r.0) == aliasStack && Pop(r.1) == namesStack
  {
    var added := AliasesOf(env.semanticModel, map[], Inherited(namesStack), usings);
    (aliasStack + [added.0], namesStack + [added.1])
  }

  /**
   * Opening a namespace scope keeps the alias scopes nested: the new top
   * names extend the enclosing ones and cover the new scope's aliases.
   */
  lemma PushKeepsScopesNested(env: Environment, aliasStack: seq<map<Symbol, string>>, namesStack: seq<set<string>>, usings: seq<UsingDirective>)
    requires AliasScopesNested(aliasStack, namesStack)
    ensures AliasScopesNested(Pushed(env, aliasStack, namesStack, usings).0, Pushed(env, aliasStack, namesStack, usings).1)
  {
    var added := AliasesOf(env.semanticModel, map[], Inherited(namesStack), usings);
    assert NamesCoverAliases(map[], Inherited(namesStack));
    var a, n := aliasStack + [added.0], namesStack + [added.1];
    assert Pushed(env, aliasStack, namesStack, usings) == (a, n);
    forall i | 0 < i < |n|
      ensures n[i - 1] <= n[i]
    {
      if i < |namesStack| {
        assert n[i - 1] == namesStack[i - 1] && n[i] == namesStack[i];
      } else {
        assert n[i - 1] == Peek(namesStack) == Inherited(namesStack);
      }
    }
    forall i | 0 <= i < |a|
      ensures NamesCoverAliases(a[i], n[i])
    {
      if i < |aliasStack| {
        assert a[i] == aliasStack[i] && n[i] == namesStack[i];
      }
    }
  }

  /** The diagnostics of a using directive's name, visited as the directive's child. */
  function UsingDiagnostics(env: Environment, aliases: Aliases, usings: seq<UsingDirective>): seq<Diagnostic>
  {
    if usings == [] then []
    else
      SyntaxDiagnostics(env, aliases, usings[0].name, Context(false, true, Some(usings[0])))
      + UsingDiagnostics(env, aliases, usings[1..])
  }

  /**
   * The diagnostics of visiting a member in the alias scopes
   * `aliasStack`/`namesStack`: a namespace's name, usings and members in the
   * scope it opens; a type's members and a cref in the enclosing scope.
   */
  function MemberDiagnostics(env: Environment, aliasStack: seq<map<Symbol, string>>, namesStack: seq<set<string>>, m: Member): seq<Diagnostic>
    requires |namesStack| > 0
    decreases m, 0
  {
    match m
    case NamespaceDeclaration(name, usings, _, members) =>
      var inner := Pushed(env, aliasStack, namesStack, usings);
      ScopeDiagnostics(env, inner.0, inner.1, Some(name), usings, members)
    case TypeDeclaration(_, _, members) => MembersDiagnostics(env, aliasStack, namesStack, members)
    case XmlCrefAttribute(cref) => SyntaxDiagnostics(env, Aliases(aliasStack, Peek(namesStack)), cref, Inside)
    case TypeOccurrence(syntax) => SyntaxDiagnostics(env, Aliases(aliasStack, Peek(namesStack)), syntax, Inside)
  }

  /** The body of a namespace scope: the namespace's name if it has one, its usings, its members. */
  function ScopeDiagnostics(env: Environment, aliasStack: seq<map<Symbol, string>>, namesStack: seq<set<string>>, name: Option<Syntax>, usings: seq<UsingDirective>, members: seq<Member>)
    : seq<Diagnostic>
    requires |namesStack| > 0
    decreases members, 2
  {
    var aliases := Aliases(aliasStack, Peek(namesStack));
    (if name.Some? then SyntaxDiagnostics(env, aliases, name.value, Inside) else [])
    + UsingDiagnostics(env, aliases, usings)
    + MembersDiagnostics(env, aliasStack, namesStack, members)
  }

  function MembersDiagnostics(env: Environment, aliasStack: seq<map<Symbol, string>>, namesStack: seq<set<string>>, members: seq<Member>): seq<Diagnostic>
    requires |namesStack| > 0
    decreases members, 1
  {
    if members == [] then []
    else MemberDiagnostics(env, aliasStack, namesStack, members[0]) + MembersDiagnostics(env, aliasStack, namesStack, members[1..])
  }

  /** The diagnostics of a whole compilation unit, visited by a fresh walker. */
  function CompilationUnitDiagnostics(env: Environment, cu: CompilationUnit): seq<Diagnostic>
  {
    var inner := Pushed(env, [], [], cu.usings);
    ScopeDiagnostics(env, inner.0, inner.1, None, cu.usings, cu.members)
  }

  /** The names of a list of using directives, each visited as its directive's child. */
  method VisitUsings(w: Walker, usings: seq<UsingDirective>)
    requires |w.aliasedSymbolNamesStack| > 0
    modifies w`diagnostics
    ensures w.diagnostics == old(w.diagnostics) + UsingDiagnostics(w.env, AliasesInScope(w), usings)
  {
    var i := 0;
    while i < |usings|
      invariant 0 <= i <= |usings|
      invariant w.diagnostics + UsingDiagnostics(w.env, AliasesInScope(w), usings[i..])
             == old(w.diagnostics) + UsingDiagnostics(w.env, AliasesInScope(w), usings)
    {
      assert usings[i..][1..] == usings[i + 1..];
      VisitSyntax(w, usings[i].name, Context(false, true, Some(usings[i])));
      i := i + 1;
    }
  }

  /**
   * `EnterNamespaceContext`: opens a scope on all four stacks with the
   * usings' aliases and the names in scope at `position`, visits the scope's
   * body, and closes it again.
   */
  method EnterNamespaceContext(w: Walker, name: Option<Syntax>, usings: seq<UsingDirective>, position: int, members: seq<Member>)
    requires w.Valid()
    modifies w`aliasStack, w`aliasedSymbolNamesStack, w`declarationNamesInScopeStack, w`staticNamesInScopeStack, w`diagnostics, w`inCref
    ensures w.Valid()
    ensures w.aliasStack == old(w.aliasStack) && w.aliasedSymbolNamesStack == old(w.aliasedSymbolNamesStack)
    ensures w.declarationNamesInScopeStack == old(w.declarationNamesInScopeStack)
    ensures w.staticNamesInScopeStack == old(w.staticNamesInScopeStack)
    ensures w.inCref == old(w.inCref)
    ensures var inner := Pushed(w.env, old(w.aliasStack), old(w.aliasedSymbolNamesStack), usings);
            w.diagnostics == old(w.diagnostics) + ScopeDiagnostics(w.env, inner.0, inner.1, name, usings, members)
    decreases members, 3
  {
    w.PushNamespaceScope(usings, position);
    assert w.aliasStack == Pop(w.aliasStack) + [Peek(w.aliasStack)];
    assert w.aliasedSymbolNamesStack == Pop(w.aliasedSymbolNamesStack) + [Peek(w.aliasedSymbolNamesStack)];
    VisitScopeBody(w, name, usings, members);
    w.PopNamespaceScope();
  }

  /** What `EnterNamespaceContext` runs inside the scope it opens: the base visit of the declaration. */
  method VisitScopeBody(w: Walker, name: Option<Syntax>, usings: seq<UsingDirective>, members: seq<Member>)
    requires w.Valid() && |w.aliasedSymbolNamesStack| > 0
    modifies w`aliasStack, w`aliasedSymbolNamesStack, w`declarationNamesInScopeStack, w`staticNamesInScopeStack, w`diagnostics, w`inCref
    ensures w.Valid()
    ensures w.aliasStack == old(w.aliasStack) && w.aliasedSymbolNamesStack == old(w.aliasedSymbolNamesStack)
    ensures w.declarationNamesInScopeStack == old(w.declarationNamesInScopeStack)
    ensures w.staticNamesInScopeStack == old(w.staticNamesInScopeStack)
    ensures w.inCref == old(w.inCref)
    ensures w.diagnostics == old(w.diagnostics) + ScopeDiagnostics(w.env, w.aliasStack, w.aliasedSymbolNamesStack, name, usings, members)
    decreases members, 2
  {
    VisitScopeHeader(w, name, usings);
    VisitMembers(w, members);
  }

  /** The part of a namespace scope's body before its members: its name, if any, and its usings. */
  method VisitScopeHeader(w: Walker, name: Option<Syntax>, usings: seq<UsingDirective>)
    requires |w.aliasedSymbolNamesStack| > 0
    modifies w`diagnostics
    ensures w.diagnostics == old(w.diagnostics)
                             + (if name.Some? then SyntaxDiagnostics(w.env, AliasesInScope(w), name.value, Inside) else [])
                             + UsingDiagnostics(w.env, AliasesInScope(w), usings)
  {
    if name.Some? {
      VisitSyntax(w, name.value, Inside);
    }
    VisitUsings(w, usings);
  }

  /**
   * `VisitTypeDeclaration`: opens a scope on the two names-in-scope stacks
   * only, visits the members, and closes it again.
   */
  method VisitTypeDeclaration(w: Walker, openBraceEnd: int, members: seq<Member>)
    requires w.Valid() && |w.aliasedSymbolNamesStack| > 0
    modifies w`aliasStack, w`aliasedSymbolNamesStack, w`declarationNamesInScopeStack, w`staticNamesInScopeStack, w`diagnostics, w`inCref
    ensures w.Valid()
    ensures w.aliasStack == old(w.aliasStack) && w.aliasedSymbolNamesStack == old(w.aliasedSymbolNamesStack)
    ensures w.declarationNamesInScopeStack == old(w.declarationNamesInScopeStack)
    ensures w.staticNamesInScopeStack == old(w.staticNamesInScopeStack)
    ensures w.inCref == old(w.inCref)
    ensures w.diagnostics == old(w.diagnostics) + MembersDiagnostics(w.env, old(w.aliasStack), old(w.aliasedSymbolNamesStack), members)
    decreases members, 1
  {
    w.PushTypeScope(openBraceEnd);
    VisitMembers(w, members);
    w.PopTypeScope();
  }

  /** `VisitXmlCrefAttribute`: the cref is visited with the flag set, and the flag is then put back. */
  method VisitXmlCrefAttribute(w: Walker, cref: Syntax)
    requires |w.aliasedSymbolNamesStack| > 0
    modifies w`diagnostics, w`inCref
    ensures w.inCref == old(w.inCref)
    ensures w.diagnostics == old(w.diagnostics) + SyntaxDiagnostics(w.env, AliasesInScope(w), cref, Inside)
  {
    var savedInCref := w.EnterCref();
    VisitSyntax(w, cref, Inside);
    w.ExitCref(savedInCref);
  }

  method VisitMember(w: Walker, m: Member)
    requires w.Valid() && |w.aliasedSymbolNamesStack| > 0
    modifies w`aliasStack, w`aliasedSymbolNamesStack, w`declarationNamesInScopeStack, w`staticNamesInScopeStack, w`diagnostics, w`inCref
    ensures w.Valid()
    ensures w.aliasStack == old(w.aliasStack) && w.aliasedSymbolNamesStack == old(w.aliasedSymbolNamesStack)
    ensures w.declarationNamesInScopeStack == old(w.declarationNamesInScopeStack)
    ensures w.staticNamesInScopeStack == old(w.staticNamesInScopeStack)
    ensures w.inCref == old(w.inCref)
    ensures w.diagnostics == old(w.diagnostics) + MemberDiagnostics(w.env, old(w.aliasStack), old(w.aliasedSymbolNamesStack), m)
    decreases m, 0
  {
    match m
    case NamespaceDeclaration(name, usings, openBraceEnd, members) =>
      EnterNamespaceContext(w, Some(name), usings, openBraceEnd, members);
    case TypeDeclaration(_, openBraceEnd, members) =>
      VisitTypeDeclaration(w, openBraceEnd, members);
    case XmlCrefAttribute(cref) =>
      VisitXmlCrefAttribute(w, cref);
    case TypeOccurrence(syntax) =>
      VisitSyntax(w, syntax, Inside);
  }

  method VisitMembers(w: Walker, members: seq<Member>)
    requires w.Valid() && |w.aliasedSymbolNamesStack| > 0
    modifies w`aliasStack, w`aliasedSymbolNamesStack, w`declarationNamesInScopeStack, w`staticNamesInScopeStack, w`diagnostics, w`inCref
    ensures w.Valid()
    ensures w.aliasStack == old(w.aliasStack) && w.aliasedSymbolNamesStack == old(w.aliasedSymbolNamesStack)
    ensures w.declarationNamesInScopeStack == old(w.declarationNamesInScopeStack)
    ensures w.staticNamesInScopeStack == old(w.staticNamesInScopeStack)
    ensures w.inCref == old(w.inCref)
    ensures w.diagnostics == old(w.diagnostics) + MembersDiagnostics(w.env, old(w.aliasStack), old(w.aliasedSymbolNamesStack), members)
    decreases members, 0
  {
    if members != [] {
      ghost var aliasStack, namesStack, before := w.aliasStack, w.aliasedSymbolNamesStack, w.diagnostics;
      ghost var first := MemberDiagnostics(w.env, aliasStack, namesStack, members[0]);
      ghost var rest := MembersDiagnostics(w.env, aliasStack, namesStack, members[1..]);
      assert MembersDiagnostics(w.env, aliasStack, namesStack, members) == first + rest;
      VisitMember(w, members[0]);
      assert w.diagnostics == before + first;
      VisitMembers(w, members[1..]);
      assert w.diagnostics == before + first + rest;
    }
  }

  /** `VisitCompilationUnit`, on a fresh walker: one scope for the unit, then everything inside it. */
  method VisitCompilationUnit(w: Walker, cu: CompilationUnit)
    requires w.Valid() && w.aliasStack == [] && w.aliasedSymbolNamesStack == []
    modifies w`aliasStack, w`aliasedSymbolNamesStack, w`declarationNamesInScopeStack, w`staticNamesInScopeStack, w`diagnostics, w`inCref
    ensures w.Valid() && w.aliasStack == [] && w.aliasedSymbolNamesStack == []
    ensures w.declarationNamesInScopeStack == old(w.declarationNamesInScopeStack)
    ensures w.staticNamesInScopeStack == old(w.staticNamesInScopeStack)
    ensures w.inCref == old(w.inCref)
    ensures w.diagnostics == old(w.diagnostics) + CompilationUnitDiagnostics(w.env, cu)
  {
    EnterNamespaceContext(w, None, cu.usings, CompilationUnitPosition(cu), cu.members);
  }
}
