/**
 * `AbstractContextVariableArgumentProvider`: suggests, as the default value
 * of a method argument, a variable already in scope.
 *
 * The provider scans the symbols in scope twice: first parameters and
 * locals, then fields and properties. A symbol is a direct candidate when its
 * type converts implicitly to the parameter's type (exactly equal, when the
 * parameter is of a special type or passed by reference). The best direct
 * candidate so far is replaced by a later one whose conversion and name are
 * the same or better. While no direct candidate has been found, the members
 * of each scanned symbol's type are scanned too, giving a nested candidate
 * `outer.inner`, used only when there is no direct one.
 *
 * The compiler's services (symbol types, special and `Nullable<T>` types,
 * conversions, the enclosing type and its accessible members) and the
 * ordinal case-insensitive comparison are given by an `Environment`.
 */
module ContextVariableArgumentProviders {

  datatype Option<T> = None | Some(value: T)

  datatype TypeId = TypeId(id: nat)

  datatype SymbolKind = ParameterKind | LocalKind | FieldKind | PropertyKind | MethodKind | NamedTypeKind | OtherKind

  /** A symbol, with what `GetSymbolType` gives for it (`None` for a symbol without a type). */
  datatype Symbol = Symbol(name: string, kind: SymbolKind, symbolType: Option<TypeId>)

  /** `RefKind`; `NoRef` is `RefKind.None`. */
  datatype RefKind = NoRef | Ref | Out | In

  datatype Parameter = Parameter(name: string, parameterType: TypeId, refKind: RefKind)

  /** The two facts of a `CommonConversion` the provider uses. */
  datatype Conversion = Conversion(isIdentity: bool, isImplicit: bool)

  /** Which member-kind filter the nested scan applies: the one written in the source, or the one intended. */
  datatype KindFilter = AsWritten | Intended

  datatype Environment = Environment(
    parameter: Parameter,
    isSpecialType: TypeId -> bool,
    isNullableT: TypeId -> bool,
    classify: (TypeId, TypeId) -> Conversion,
    enclosingType: Option<TypeId>,
    accessibleMembers: (TypeId, TypeId) -> seq<Symbol>,
    foldCase: string -> string,
    filter: KindFilter)

  datatype Candidate = Candidate(symbol: Symbol, conversion: Conversion)

  datatype NestedCandidate = NestedCandidate(outer: Symbol, inner: Symbol, conversion: Conversion)

  /** The captured locals `bestSymbol`/`bestConversion` and `bestNestedSymbol`/`bestNestedConversion`. */
  datatype State = State(best: Option<Candidate>, nested: Option<NestedCandidate>)

  /** What the provider settles on. */
  datatype Suggestion = NoSuggestion | Direct(symbol: Symbol) | Nested(outer: Symbol, inner: Symbol)

  /** `string.Equals(a, b, StringComparison.OrdinalIgnoreCase)`. */
  predicate EqualsIgnoreCase(env: Environment, a: string, b: string)
  {
    env.foldCase(a) == env.foldCase(b)
  }

  /** An exact type match is demanded for a parameter of special type or one passed by reference. */
  predicate RequireExactType(env: Environment)
  {
    env.isSpecialType(env.parameter.parameterType) || env.parameter.refKind != NoRef
  }

  // ---- The rankings ----

  /** How well a conversion fits: identity, implicit, or neither. */
  function ConversionRank(c: Conversion): nat
  {
    if c.isIdentity then 2 else if c.isImplicit then 1 else 0
  }

  /** A conversion as the compiler classifies it: an identity conversion is implicit. */
  predicate WellFormed(c: Conversion)
  {
    c.isIdentity ==> c.isImplicit
  }

  /**
   * `IsNewConversionSameOrBetter`: false exactly when the new conversion
   * loses identity or loses implicitness.
   */
  function IsNewConversionSameOrBetter(bestConversion: Conversion, conversion: Conversion): (r: bool)
    ensures !r <==> (bestConversion.isIdentity && !conversion.isIdentity) || (bestConversion.isImplicit && !conversion.isImplicit)
  {
    if bestConversion.isIdentity && !conversion.isIdentity then false
    else if bestConversion.isImplicit && !conversion.isImplicit then false
    else true
  }

  /** For conversions the compiler can produce, "same or better" is "ranked at least as high". */
  lemma ConversionSameOrBetterIsRank(bestConversion: Conversion, conversion: Conversion)
    requires WellFormed(bestConversion) && WellFormed(conversion)
    ensures IsNewConversionSameOrBetter(bestConversion, conversion) <==> ConversionRank(conversion) >= ConversionRank(bestConversion)
  {
  }

  /** "Same or better" on conversions is a preorder. */
  lemma ConversionSameOrBetterIsPreorder(a: Conversion, b: Conversion, c: Conversion)
    ensures IsNewConversionSameOrBetter(a, a)
    ensures IsNewConversionSameOrBetter(a, b) && IsNewConversionSameOrBetter(b, c) ==> IsNewConversionSameOrBetter(a, c)
  {
  }

  /** How well a name fits the parameter's: exactly, up to case, or not at all. */
  function NameRank(env: Environment, name: string): nat
  {
    if name == env.parameter.name then 2
    else if EqualsIgnoreCase(env, name, env.parameter.name) then 1
    else 0
  }

  /**
   * `IsNewNameSameOrBetter`: an exact match must be followed by an exact
   * match, a case-insensitive match by a case-insensitive match, and anything
   * may follow a name that does not match.
   */
  function IsNewNameSameOrBetter(env: Environment, bestSymbol: Symbol, symbol: Symbol): (r: bool)
    ensures r <==> NameRank(env, symbol.name) >= NameRank(env, bestSymbol.name)
  {
    if bestSymbol.name == env.parameter.name then symbol.name == env.parameter.name
    else if EqualsIgnoreCase(env, bestSymbol.name, env.parameter.name) then EqualsIgnoreCase(env, symbol.name, env.parameter.name)
    else true
  }

  // ---- One direct candidate ----

  /**
   * The filters of `CheckOuterCandidate`: the symbol has a type; if names
   * are checked for special types, a special-typed symbol's name matches the
   * parameter's up to case; the type is the parameter's type when an exact
   * match is required; and the conversion to the parameter type is implicit.
   */
  predicate Qualifies(env: Environment, s: Symbol, checkNameForSpecialTypes: bool)
  {
    && s.symbolType.Some?
    && !(checkNameForSpecialTypes && env.isSpecialType(s.symbolType.value) && !EqualsIgnoreCase(env, s.name, env.parameter.name))
    && (RequireExactType(env) ==> s.symbolType.value == env.parameter.parameterType)
    && env.classify(s.symbolType.value, env.parameter.parameterType).isImplicit
  }

  function ConversionOf(env: Environment, s: Symbol): Conversion
    requires s.symbolType.Some?
  {
    env.classify(s.symbolType.value, env.parameter.parameterType)
  }

  /**
   * `CheckOuterCandidate`: a qualifying candidate becomes the best when there
   * is none yet, or when its conversion and its name are both the same as or
   * better than the best's (so among equals the last one scanned wins);
   * otherwise the best is kept.
   */
  function CheckOuterCandidate(env: Environment, best: Option<Candidate>, candidate: Symbol, symbolType: TypeId, checkNameForSpecialTypes: bool)
    : (r: Option<Candidate>)
    requires candidate.symbolType == Some(symbolType)
    ensures r.Some? <==> best.Some? || Qualifies(env, candidate, checkNameForSpecialTypes)
    ensures r == Some(Candidate(candidate, ConversionOf(env, candidate))) || r == best
    ensures r != best ==> Qualifies(env, candidate, checkNameForSpecialTypes)
    ensures Qualifies(env, candidate, checkNameForSpecialTypes)
            && (best.Some? ==> IsNewConversionSameOrBetter(best.value.conversion, ConversionOf(env, candidate))
                               && IsNewNameSameOrBetter(env, best.value.symbol, candidate))
            ==> r == Some(Candidate(candidate, ConversionOf(env, candidate)))
    ensures best.Some? && !(IsNewConversionSameOrBetter(best.value.conversion, ConversionOf(env, candidate))
                            && IsNewNameSameOrBetter(env, best.value.symbol, candidate))
            ==> r == best
  {
    if checkNameForSpecialTypes && env.isSpecialType(symbolType) && !EqualsIgnoreCase(env, candidate.name, env.parameter.name) then
      best
    else if RequireExactType(env) && env.parameter.parameterType != symbolType then
      best
    else
      var conversion := env.classify(symbolType, env.parameter.parameterType);
      if !conversion.isImplicit then
        best
      else if best.Some? && !IsNewConversionSameOrBetter(best.value.conversion, conversion) then
        best
      else if best.Some? && !IsNewNameSameOrBetter(env, best.value.symbol, candidate) then
        best
      else
        Some(Candidate(candidate, conversion))
  }

  // ---- The nested scan ----

  /** The member-kind test at the head of the nested loop, as written: `member.Kind is not SymbolKind.Property or SymbolKind.Field`, which C# reads as `(is not Property) or Field`. */
  predicate SkipsMemberKindAsWritten(k: SymbolKind)
  {
    !(k == PropertyKind) || k == FieldKind
  }

  /** The member-kind test as intended: `member.Kind is not (SymbolKind.Property or SymbolKind.Field)`. */
  predicate SkipsMemberKind(k: SymbolKind)
  {
    !(k == PropertyKind || k == FieldKind)
  }

  predicate Skips(filter: KindFilter, k: SymbolKind)
  {
    match filter
    case AsWritten => SkipsMemberKindAsWritten(k)
    case Intended => SkipsMemberKind(k)
  }

  /** As written, the test skips every member that is not a property: fields included. */
  lemma AsWrittenSkipsFields(k: SymbolKind)
    ensures SkipsMemberKindAsWritten(k) <==> k != PropertyKind
    ensures SkipsMemberKindAsWritten(FieldKind)
  {
  }

  /** As intended, the test keeps exactly fields and properties. */
  lemma IntendedKeepsFieldsAndProperties(k: SymbolKind)
    ensures !SkipsMemberKind(k) <==> k == FieldKind || k == PropertyKind
  {
  }

  /** A special-typed member whose name does not match the parameter's ends the member scan. */
  predicate StopsScan(env: Environment, m: Symbol)
  {
    m.symbolType.Some? && env.isSpecialType(m.symbolType.value) && !EqualsIgnoreCase(env, m.name, env.parameter.name)
  }

  /** The filters a member passes to become a nested candidate. */
  predicate NestedQualifies(env: Environment, m: Symbol)
  {
    && !Skips(env.filter, m.kind)
    && m.symbolType.Some?
    && (RequireExactType(env) ==> m.symbolType.value == env.parameter.parameterType)
    && env.classify(m.symbolType.value, env.parameter.parameterType).isImplicit
  }

  /**
   * The loop over the accessible members in `CheckInnerCandidates`, from the
   * first member on, starting from the nested candidate `nested`.
   */
  function ScanMembers(env: Environment, nested: Option<NestedCandidate>, outer: Symbol, members: seq<Symbol>): (r: Option<NestedCandidate>)
    ensures nested.Some? ==> r.Some?
    ensures r != nested ==> r.Some? && r.value.outer == outer && r.value.inner in members && NestedQualifies(env, r.value.inner)
    decreases |members|
  {
    if members == [] then
      nested
    else
      var m := members[0];
      if StopsScan(env, m) then
        nested
      else if Skips(env.filter, m.kind) || m.symbolType.None? then
        ScanMembers(env, nested, outer, members[1..])
      else if RequireExactType(env) && env.parameter.parameterType != m.symbolType.value then
        ScanMembers(env, nested, outer, members[1..])
      else
        var conversion := env.classify(m.symbolType.value, env.parameter.parameterType);
        if !conversion.isImplicit then
          ScanMembers(env, nested, outer, members[1..])
        else if nested.Some?
                && !(IsNewConversionSameOrBetter(nested.value.conversion, conversion) && IsNewNameSameOrBetter(env, nested.value.inner, m)) then
          ScanMembers(env, nested, outer, members[1..])
        else
          ScanMembers(env, Some(NestedCandidate(outer, m, conversion)), outer, members[1..])
  }

  /** The scan never looks past a special-typed member whose name does not match. */
  lemma {:induction false} ScanStopsAtSpecialMismatch(env: Environment, nested: Option<NestedCandidate>, outer: Symbol, members: seq<Symbol>, k: nat)
    requires k < |members| && StopsScan(env, members[k])
    ensures ScanMembers(env, nested, outer, members) == ScanMembers(env, nested, outer, members[..k])
    decreases k
  {
    if k == 0 {
      assert members[..0] == [];
    } else if StopsScan(env, members[0]) {
      assert members[..k][0] == members[0];
      ScanStopsAtSpecialMismatch(env, nested, outer, members[..k], 0);
      assert members[..k][..0] == [];
    } else {
      assert members[..k][0] == members[0];
      assert members[..k][1..] == members[1..][..k - 1];
      // Whatever the first member does to `nested`, the rest is scanned the same way in both.
      forall n: Option<NestedCandidate>
        ensures ScanMembers(env, n, outer, members[1..]) == ScanMembers(env, n, outer, members[1..][..k - 1])
      {
        ScanStopsAtSpecialMismatch(env, n, outer, members[1..], k - 1);
      }
    }
  }

  /** With the filter as written, the nested candidate is never a field. */
  lemma AsWrittenNeverNestsAField(env: Environment, nested: Option<NestedCandidate>, outer: Symbol, members: seq<Symbol>)
    requires env.filter == AsWritten
    ensures ScanMembers(env, nested, outer, members) != nested ==> ScanMembers(env, nested, outer, members).value.inner.kind == PropertyKind
  {
  }

  /**
   * `CheckInnerCandidates`: the members of a `Nullable<T>` are never
   * scanned, nor are any members without an enclosing type.
   */
  function CheckInnerCandidates(env: Environment, nested: Option<NestedCandidate>, candidate: Symbol, outerType: TypeId): (r: Option<NestedCandidate>)
    ensures nested.Some? ==> r.Some?
    ensures r != nested ==>
              && !env.isNullableT(outerType)
              && env.enclosingType.Some?
              && r.value.outer == candidate
              && r.value.inner in env.accessibleMembers(outerType, env.enclosingType.value)
              && NestedQualifies(env, r.value.inner)
  {
    if env.isNullableT(outerType) then nested
    else if env.enclosingType.None? then nested
    else ScanMembers(env, nested, candidate, env.accessibleMembers(outerType, env.enclosingType.value))
  }

  // ---- One symbol, and the two loops ----

  /**
   * `CheckCandidate`: a symbol without a type is ignored; the symbol's own
   * candidacy is checked first, and its members only while `checkMembers`
   * holds and there is still no best direct candidate.
   */
  function CheckCandidate(env: Environment, st: State, candidate: Symbol, checkNameForSpecialTypes: bool, checkMembers: bool): (r: State)
    ensures r.best.Some? <==> st.best.Some? || Qualifies(env, candidate, checkNameForSpecialTypes)
    ensures r.best != st.best ==> Qualifies(env, candidate, checkNameForSpecialTypes) && r.best == Some(Candidate(candidate, ConversionOf(env, candidate)))
    ensures r.nested != st.nested ==> checkMembers && r.best.None? && r.nested.Some? && r.nested.value.outer == candidate
    ensures st.nested.Some? ==> r.nested.Some?
  {
    if candidate.symbolType.None? then
      st
    else
      var best := CheckOuterCandidate(env, st.best, candidate, candidate.symbolType.value, checkNameForSpecialTypes);
      if checkMembers && best.None? then
        State(best, CheckInnerCandidates(env, st.nested, candidate, candidate.symbolType.value))
      else
        State(best, st.nested)
  }

  datatype Phase = LocalsAndParameters | FieldsAndProperties

  predicate InPhase(phase: Phase, k: SymbolKind)
  {
    match phase
    case LocalsAndParameters => k == ParameterKind || k == LocalKind
    case FieldsAndProperties => k == FieldKind || k == PropertyKind
  }

  /** A symbol that the given phase takes as its best direct candidate, all else being equal. */
  predicate DirectCandidate(env: Environment, phase: Phase, s: Symbol)
  {
    InPhase(phase, s.kind) && Qualifies(env, s, phase == FieldsAndProperties)
  }

  /**
   * One of the two `foreach` loops over the symbols in scope. Parameters and
   * locals are checked without the special-type name test and with their
   * members; fields and properties with the name test, and with their
   * members only while no nested candidate has been found.
   */
  function ScanSymbols(env: Environment, phase: Phase, st: State, symbols: seq<Symbol>): State
    decreases |symbols|
  {
    if symbols == [] then
      st
    else
      var s := symbols[0];
      var next :=
        if !InPhase(phase, s.kind) then st
        else if phase == LocalsAndParameters then CheckCandidate(env, st, s, false, true)
        else CheckCandidate(env, st, s, true, st.nested.None?);
      ScanSymbols(env, phase, next, symbols[1..])
  }

  /** A loop ends with a best direct candidate exactly when one was there already or one of its symbols qualifies. */
  lemma {:induction false} ScanFindsDirectIffOneQualifies(env: Environment, phase: Phase, st: State, symbols: seq<Symbol>)
    ensures ScanSymbols(env, phase, st, symbols).best.Some? <==>
              st.best.Some? || exists i :: 0 <= i < |symbols| && DirectCandidate(env, phase, symbols[i])
    decreases |symbols|
  {
    if symbols != [] {
      var s := symbols[0];
      var next :=
        if !InPhase(phase, s.kind) then st
        else if phase == LocalsAndParameters then CheckCandidate(env, st, s, false, true)
        else CheckCandidate(env, st, s, true, st.nested.None?);
      ScanFindsDirectIffOneQualifies(env, phase, next, symbols[1..]);
      assert forall i :: 0 <= i < |symbols| - 1 ==> symbols[1..][i] == symbols[i + 1];
      if exists i :: 0 <= i < |symbols| && DirectCandidate(env, phase, symbols[i]) {
        var i :| 0 <= i < |symbols| && DirectCandidate(env, phase, symbols[i]);
        if i > 0 {
          assert symbols[1..][i - 1] == symbols[i];
        }
      }
    }
  }

  /** A best direct candidate that a loop found is one of its symbols, and qualifies. */
  lemma {:induction false} ScanBestIsADirectCandidate(env: Environment, phase: Phase, st: State, symbols: seq<Symbol>)
    ensures ScanSymbols(env, phase, st, symbols).best == st.best
            || (&& ScanSymbols(env, phase, st, symbols).best.Some?
                && ScanSymbols(env, phase, st, symbols).best.value.symbol in symbols
                && DirectCandidate(env, phase, ScanSymbols(env, phase, st, symbols).best.value.symbol))
    decreases |symbols|
  {
    if symbols != [] {
      var s := symbols[0];
      var next :=
        if !InPhase(phase, s.kind) then st
        else if phase == LocalsAndParameters then CheckCandidate(env, st, s, false, true)
        else CheckCandidate(env, st, s, true, st.nested.None?);
      ScanBestIsADirectCandidate(env, phase, next, symbols[1..]);
      assert ScanSymbols(env, phase, st, symbols) == ScanSymbols(env, phase, next, symbols[1..]);
      if next.best != st.best {
        assert next.best.value.symbol == s;
      }
    }
  }

  /** Once the best direct candidate's name matches the parameter's exactly, it always will. */
  lemma {:induction false} ScanKeepsAnExactName(env: Environment, phase: Phase, st: State, symbols: seq<Symbol>)
    requires st.best.Some? && st.best.value.symbol.name == env.parameter.name
    ensures ScanSymbols(env, phase, st, symbols).best.Some?
    ensures ScanSymbols(env, phase, st, symbols).best.value.symbol.name == env.parameter.name
    decreases |symbols|
  {
    if symbols != [] {
      var s := symbols[0];
      var next :=
        if !InPhase(phase, s.kind) then st
        else if phase == LocalsAndParameters then CheckCandidate(env, st, s, false, true)
        else CheckCandidate(env, st, s, true, st.nested.None?);
      assert next.best.Some? && next.best.value.symbol.name == env.parameter.name;
      ScanKeepsAnExactName(env, phase, next, symbols[1..]);
    }
  }

  /** Once the best direct candidate converts by identity, it always will. */
  lemma {:induction false} ScanKeepsAnIdentityConversion(env: Environment, phase: Phase, st: State, symbols: seq<Symbol>)
    requires st.best.Some? && st.best.value.conversion.isIdentity
    ensures ScanSymbols(env, phase, st, symbols).best.Some?
    ensures ScanSymbols(env, phase, st, symbols).best.value.conversion.isIdentity
    decreases |symbols|
  {
    if symbols != [] {
      var s := symbols[0];
      var next :=
        if !InPhase(phase, s.kind) then st
        else if phase == LocalsAndParameters then CheckCandidate(env, st, s, false, true)
        else CheckCandidate(env, st, s, true, st.nested.None?);
      assert next.best.Some? && next.best.value.conversion.isIdentity;
      ScanKeepsAnIdentityConversion(env, phase, next, symbols[1..]);
    }
  }

  /** A nested candidate, once found, is never lost (it can only be replaced). */
  lemma {:induction false} ScanKeepsANestedCandidate(env: Environment, phase: Phase, st: State, symbols: seq<Symbol>)
    ensures st.nested.Some? ==> ScanSymbols(env, phase, st, symbols).nested.Some?
    decreases |symbols|
  {
    if symbols != [] {
      var s := symbols[0];
      var next :=
        if !InPhase(phase, s.kind) then st
        else if phase == LocalsAndParameters then CheckCandidate(env, st, s, false, true)
        else CheckCandidate(env, st, s, true, st.nested.None?);
      ScanKeepsANestedCandidate(env, phase, next, symbols[1..]);
    }
  }

  // ---- The provider ----

  /** What `ProvideArgumentAsync` settles on, with no previous value. */
  function Provide(env: Environment, symbols: seq<Symbol>): Suggestion
  {
    var afterLocals := ScanSymbols(env, LocalsAndParameters, State(None, None), symbols);
    if afterLocals.best.Some? then
      Direct(afterLocals.best.value.symbol)
    else
      var afterFields := ScanSymbols(env, FieldsAndProperties, afterLocals, symbols);
      if afterFields.best.Some? then Direct(afterFields.best.value.symbol)
      else if afterFields.nested.Some? then Nested(afterFields.nested.value.outer, afterFields.nested.value.inner)
      else NoSuggestion
  }

  /** The text the suggestion puts into `DefaultValue`. */
  function Text(s: Suggestion): Option<string>
  {
    match s
    case NoSuggestion => None
    case Direct(symbol) => Some(symbol.name)
    case Nested(outer, inner) => Some(outer.name + "." + inner.name)
  }

  /**
   * Parameters and locals come first: when one of them qualifies, the
   * suggestion is a qualifying parameter or local, and no field or property
   * is chosen.
   */
  lemma LocalsComeFirst(env: Environment, symbols: seq<Symbol>, i: nat)
    requires i < |symbols| && DirectCandidate(env, LocalsAndParameters, symbols[i])
    ensures Provide(env, symbols).Direct?
    ensures Provide(env, symbols).symbol in symbols
    ensures DirectCandidate(env, LocalsAndParameters, Provide(env, symbols).symbol)
  {
    ScanFindsDirectIffOneQualifies(env, LocalsAndParameters, State(None, None), symbols);
    ScanBestIsADirectCandidate(env, LocalsAndParameters, State(None, None), symbols);
  }

  /** A direct suggestion is always one of the symbols in scope and qualifies in its phase. */
  lemma DirectSuggestionQualifies(env: Environment, symbols: seq<Symbol>)
    ensures Provide(env, symbols).Direct? ==>
              && Provide(env, symbols).symbol in symbols
              && (DirectCandidate(env, LocalsAndParameters, Provide(env, symbols).symbol)
                  || DirectCandidate(env, FieldsAndProperties, Provide(env, symbols).symbol))
  {
    var afterLocals := ScanSymbols(env, LocalsAndParameters, State(None, None), symbols);
    ScanBestIsADirectCandidate(env, LocalsAndParameters, State(None, None), symbols);
    ScanBestIsADirectCandidate(env, FieldsAndProperties, afterLocals, symbols);
  }

  /** A direct suggestion is made exactly when some symbol in scope qualifies directly. */
  lemma DirectSuggestionIffOneQualifies(env: Environment, symbols: seq<Symbol>)
    ensures Provide(env, symbols).Direct? <==>
              exists i :: 0 <= i < |symbols|
                && (DirectCandidate(env, LocalsAndParameters, symbols[i]) || DirectCandidate(env, FieldsAndProperties, symbols[i]))
  {
    var afterLocals := ScanSymbols(env, LocalsAndParameters, State(None, None), symbols);
    ScanFindsDirectIffOneQualifies(env, LocalsAndParameters, State(None, None), symbols);
    ScanFindsDirectIffOneQualifies(env, FieldsAndProperties, afterLocals, symbols);
  }

  /** The nested suggestion `outer.inner` is made only when no symbol in scope qualifies directly. */
  lemma NestedOnlyWithoutDirect(env: Environment, symbols: seq<Symbol>, i: nat)
    requires i < |symbols| && (DirectCandidate(env, LocalsAndParameters, symbols[i]) || DirectCandidate(env, FieldsAndProperties, symbols[i]))
    ensures !Provide(env, symbols).Nested?
    ensures Provide(env, symbols) != NoSuggestion
  {
    DirectSuggestionIffOneQualifies(env, symbols);
  }

  /** `CheckInnerCandidates` run step by step: the member loop as a `while` loop, with its early `return`. */
  method ScanInnerCandidates(env: Environment, nested: Option<NestedCandidate>, candidate: Symbol, outerType: TypeId)
    returns (r: Option<NestedCandidate>)
    ensures r == CheckInnerCandidates(env, nested, candidate, outerType)
  {
    if env.isNullableT(outerType) {
      return nested;
    }
    if env.enclosingType.None? {
      return nested;
    }
    var members := env.accessibleMembers(outerType, env.enclosingType.value);
    r := nested;
    var i := 0;
    while i < |members|
      invariant 0 <= i <= |members|
      invariant ScanMembers(env, r, candidate, members[i..]) == ScanMembers(env, nested, candidate, members)
    {
      var member := members[i];
      assert members[i..][0] == member && members[i..][1..] == members[i + 1..];
      if StopsScan(env, member) {
        return;
      }
      if Skips(env.filter, member.kind) || member.symbolType.None? {
        i := i + 1;
        continue;
      }
      var symbolType := member.symbolType.value;
      if RequireExactType(env) && env.parameter.parameterType != symbolType {
        i := i + 1;
        continue;
      }
      var conversion := env.classify(symbolType, env.parameter.parameterType);
      if !conversion.isImplicit {
        i := i + 1;
        continue;
      }
      if r.Some? {
        if !IsNewConversionSameOrBetter(r.value.conversion, conversion) {
          i := i + 1;
          continue;
        }
        if !IsNewNameSameOrBetter(env, r.value.inner, member) {
          i := i + 1;
          continue;
        }
      }
      r := Some(NestedCandidate(candidate, member, conversion));
      i := i + 1;
    }
  }

  /** One `foreach` loop over the symbols, updating the best and nested candidates as it goes. */
  method ScanSymbolsInPlace(env: Environment, phase: Phase, st: State, symbols: seq<Symbol>) returns (r: State)
    ensures r == ScanSymbols(env, phase, st, symbols)
  {
    var best := st.best;
    var nested := st.nested;
    for i := 0 to |symbols|
      invariant ScanSymbols(env, phase, State(best, nested), symbols[i..]) == ScanSymbols(env, phase, st, symbols)
    {
      var candidate := symbols[i];
      assert symbols[i..][0] == candidate && symbols[i..][1..] == symbols[i + 1..];
      if !InPhase(phase, candidate.kind) {
        continue;
      }
      var checkNameForSpecialTypes := phase == FieldsAndProperties;
      var checkMembers := phase == LocalsAndParameters || nested.None?;
      if candidate.symbolType.None? {
        continue;
      }
      best := CheckOuterCandidate(env, best, candidate, candidate.symbolType.value, checkNameForSpecialTypes);
      if checkMembers && best.None? {
        nested := ScanInnerCandidates(env, nested, candidate, candidate.symbolType.value);
      }
    }
    r := State(best, nested);
  }

  /** The completion context of one argument. */
  class ArgumentContext {
    /** The semantic model, the parameter and the kind filter in force. */
    const env: Environment
    /** What `LookupSymbols` returns at the argument's position. */
    const symbols: seq<Symbol>
    const previousValue: Option<string>
    var defaultValue: Option<string>

    constructor (env: Environment, symbols: seq<Symbol>, previousValue: Option<string>)
      ensures this.env == env && this.symbols == symbols && this.previousValue == previousValue && defaultValue == None
    {
      this.env := env;
      this.symbols := symbols;
      this.previousValue := previousValue;
      defaultValue := None;
    }

    /**
     * `ProvideArgumentAsync`: an argument already in code is left alone;
     * otherwise the default value becomes the direct suggestion, else the
     * nested one, else stays as it was.
     */
    method ProvideArgument()
      modifies this
      ensures previousValue.Some? ==> defaultValue == old(defaultValue)
      ensures previousValue.None? && Text(Provide(env, symbols)).Some? ==> defaultValue == Text(Provide(env, symbols))
      ensures previousValue.None? && Text(Provide(env, symbols)).None? ==> defaultValue == old(defaultValue)
    {
      if previousValue.Some? {
        return;
      }
      var afterLocals := ScanSymbolsInPlace(env, LocalsAndParameters, State(None, None), symbols);
      if afterLocals.best.Some? {
        defaultValue := Some(afterLocals.best.value.symbol.name);
        return;
      }
      var afterFields := ScanSymbolsInPlace(env, FieldsAndProperties, afterLocals, symbols);
      if afterFields.best.Some? {
        defaultValue := Some(afterFields.best.value.symbol.name);
        return;
      }
      if afterFields.nested.Some? {
        defaultValue := Some(afterFields.nested.value.outer.name + "." + afterFields.nested.value.inner.name);
        return;
      }
    }
  }

  // ---- The kind filter, on a whole program ----

  /**
   * A local `holder` whose type has an accessible field `count` of the
   * parameter `count`'s type, and nothing else that converts.
   */
  function FieldExample(filter: KindFilter): (Environment, seq<Symbol>)
  {
    (Environment(
       Parameter("count", TypeId(2), NoRef),
       (t: TypeId) => false,
       (t: TypeId) => false,
       (from: TypeId, to: TypeId) => if from == to then Conversion(true, true) else Conversion(false, false),
       Some(TypeId(0)),
       (t: TypeId, within: TypeId) => if t == TypeId(1) then [Symbol("count", FieldKind, Some(TypeId(2)))] else [],
       (s: string) => s,
       filter),
     [Symbol("holder", LocalKind, Some(TypeId(1)))])
  }

  /** As written, the provider suggests nothing for the field example. */
  lemma AsWrittenMissesField()
    ensures Provide(FieldExample(AsWritten).0, FieldExample(AsWritten).1) == NoSuggestion
  {
    var (env, symbols) := FieldExample(AsWritten);
    var holder := symbols[0];
    assert CheckInnerCandidates(env, None, holder, TypeId(1)) == None;
  }

  /** As intended, the provider suggests `holder.count`. */
  lemma IntendedSuggestsField()
    ensures Provide(FieldExample(Intended).0, FieldExample(Intended).1)
            == Nested(Symbol("holder", LocalKind, Some(TypeId(1))), Symbol("count", FieldKind, Some(TypeId(2))))
    ensures Text(Provide(FieldExample(Intended).0, FieldExample(Intended).1)) == Some("holder.count")
  {
    var (env, symbols) := FieldExample(Intended);
    var holder := symbols[0];
    var field := Symbol("count", FieldKind, Some(TypeId(2)));
    assert env.accessibleMembers(TypeId(1), TypeId(0)) == [field];
    assert ScanMembers(env, None, holder, [field]) == Some(NestedCandidate(holder, field, Conversion(true, true)));
    assert CheckInnerCandidates(env, None, holder, TypeId(1)) == Some(NestedCandidate(holder, field, Conversion(true, true)));
    assert "holder" + "." + "count" == "holder.count";
  }
}
