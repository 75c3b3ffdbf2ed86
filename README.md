# Roslyn utilities and analyzers, modelled in Dafny

This project models several small pieces of the Roslyn compiler platform and
proves properties about them:

- **ReferenceCountedDisposable.** A shared owner of an `IDisposable`. It
  disposes the target exactly once, when the last counted reference is
  released. A weak reference to it can take a new counted reference for as
  long as the target is alive. The model is built from the component's tests.
- **The object pool wrappers.**
  - `PooledObject<T>` takes an object from an `ObjectPool` and hands it back
    on `Dispose`.
  - `IPoolableObject` objects carry a `PooledObjectToken`, which changes when
    the object is initialized and when it is released. A stale token detects
    use after release.
- **AsyncLazyInitializer.** Fills a slot once with a factory's value and
  returns whatever value was published first.
- **Hash.Combine and Hash.CombineFNVHash.** The expression evaluator's 32-bit
  hash steps.
- **NullableKeywordRecommender.** Offers `nullable` after
  `# pragma warning disable|restore|enable`, and in a preprocessor keyword
  context.
- **AbstractContextVariableArgumentProvider.** Picks a parameter, local,
  field or property, or a member `outer.inner` of one, to fill in a method
  argument.
- **TypeSyntaxSimplifierWalker.** Walks a C# syntax tree and reports type
  names that can be written shorter:
  - as a predefined keyword;
  - as an alias in scope;
  - as `T?`;
  - by dropping a qualifier.

  It keeps four parallel stacks of scopes: aliases, aliased-symbol names,
  declaration names and static names.

The code's own shape carries over:

- Objects whose fields change in place are Dafny classes whose methods carry
  `modifies` clauses.
- Loops are `while`/`for` methods, proved against specification functions.
- Pure decision logic is functions plus lemmas.

The compiler's semantic model is given as functions in an environment value:
- symbol lookup, symbol information, conversions;
- whether a node is in a namespace-or-type context, or is a `nameof` argument.

Syntax trees are small datatypes.

Files:

- `reference_counted_disposable.dfy`: module `ReferenceCountedDisposables`.
- `pooled_object_token.dfy`, `poolable_object.dfy` and `pooled_object.dfy`:
  modules `PooledObjectTokens`, `PoolableObjects` and `PooledObjects`.
- `async_lazy_initializer.dfy`: module `AsyncLazyInitializers`.
- `hash_functions.dfy`: module `HashFunctions`.
- `nullable_keyword_recommender.dfy`: module `NullableKeywordRecommender`.
- `context_variable_argument_provider.dfy`: module
  `ContextVariableArgumentProviders`.
- `type_syntax_simplifier_scopes.dfy`: module `TypeSyntaxSimplifierScopes`.
  It holds the walker's state and its scope operations.
- `type_syntax_simplifier_binding.dfy`: module `TypeSyntaxSimplifierBinding`.
  It holds the name visits, their gates and their order.
- `type_syntax_simplifier_walk.dfy`: module `TypeSyntaxSimplifierWalk`. It
  holds the declaration visits that open and close scopes.

## Model

| member | source | states |
|---|---|---|
| ReferenceCountedDisposables.DisposableObject.Dispose | src/Workspaces/CoreTest/WorkspaceServiceTests/ReferenceCountedDisposableTests.cs:155-159 | the test target becomes disposed and counts one more disposal |
| ReferenceCountedDisposables.New | src/Workspaces/CoreTest/WorkspaceServiceTests/ReferenceCountedDisposableTests.cs:16-19 | a null instance is rejected with an argument-null error; otherwise a fresh handle owns a new box whose only holder is that handle, count 1, target the instance |
| ReferenceCountedDisposables.Handle.Target | src/Workspaces/CoreTest/WorkspaceServiceTests/ReferenceCountedDisposableTests.cs:30-39 | the target is returned exactly while the handle is live; a released or default handle reports object-disposed |
| ReferenceCountedDisposables.Handle.Dispose | src/Workspaces/CoreTest/WorkspaceServiceTests/ReferenceCountedDisposableTests.cs:34-41 | the first dispose releases this handle and decrements the count; a repeated dispose changes nothing; the box's invariant (target disposed exactly once, when the count reaches zero) is kept |
| ReferenceCountedDisposables.Handle.TryAddReference | src/Workspaces/CoreTest/WorkspaceServiceTests/ReferenceCountedDisposableTests.cs:53-71 | a live handle yields a new live handle on the same box with the count one higher; a released handle yields a default handle and leaves the box unchanged |
| ReferenceCountedDisposables.Handle.IsDefault | src/Workspaces/CoreTest/WorkspaceServiceTests/ReferenceCountedDisposableTests.cs:53 | no contract of its own: a handle is default exactly when it wraps no box; `TryAddReference` and the test lemmas state when a default handle results |
| ReferenceCountedDisposables.MakeWeak | src/Workspaces/CoreTest/WorkspaceServiceTests/ReferenceCountedDisposableTests.cs:129-132 | a default handle is rejected with an argument-null error; otherwise the weak reference points at the handle's box, or at nothing when the handle is already released |
| ReferenceCountedDisposables.WeakReference.TryAddReference | src/Workspaces/CoreTest/WorkspaceServiceTests/ReferenceCountedDisposableTests.cs:116-118 | while the box's count is positive a new live handle is added; with no box or a zero count the result is a default handle and the box is unchanged |
| ReferenceCountedDisposables.ArgumentValidation | src/Workspaces/CoreTest/WorkspaceServiceTests/ReferenceCountedDisposableTests.cs:16-19 | creating from null fails with an argument-null error |
| ReferenceCountedDisposables.SingleReferenceDispose | src/Workspaces/CoreTest/WorkspaceServiceTests/ReferenceCountedDisposableTests.cs:25-42 | `Target` gives the object before disposal and object-disposed after; any positive number of disposes disposes the target exactly once |
| ReferenceCountedDisposables.TryAddReferenceFailsAfterDispose | src/Workspaces/CoreTest/WorkspaceServiceTests/ReferenceCountedDisposableTests.cs:46-54 | adding a reference through a disposed handle gives a default handle |
| ReferenceCountedDisposables.TryAddReferenceFailsAfterDisposeWhileShared | src/Workspaces/CoreTest/WorkspaceServiceTests/ReferenceCountedDisposableTests.cs:58-74 | the disposed handle cannot add a reference even though a second handle still keeps the target alive and undisposed |
| ReferenceCountedDisposables.OutOfOrderDispose | src/Workspaces/CoreTest/WorkspaceServiceTests/ReferenceCountedDisposableTests.cs:78-95 | the target survives the first two disposes in any order and is disposed exactly once by the last |
| ReferenceCountedDisposables.WeakReferenceLifetime | src/Workspaces/CoreTest/WorkspaceServiceTests/ReferenceCountedDisposableTests.cs:99-125 | the released handle adds only a default handle, yet the weak reference taken from it still adds a live one while another handle holds the target; the target is not disposed before the last handle and is disposed exactly once |
| ReferenceCountedDisposables.WeakReferenceArgumentValidation | src/Workspaces/CoreTest/WorkspaceServiceTests/ReferenceCountedDisposableTests.cs:129-132 | a weak reference from a default handle fails with an argument-null error |
| ReferenceCountedDisposables.DefaultWeakReference | src/Workspaces/CoreTest/WorkspaceServiceTests/ReferenceCountedDisposableTests.cs:138 | `default(WeakReference)`: a fresh weak reference that points at no box |
| ReferenceCountedDisposables.DefaultWeakReferenceAddsNothing | src/Workspaces/CoreTest/WorkspaceServiceTests/ReferenceCountedDisposableTests.cs:136-139 | a default weak reference adds only default handles |
| PooledObjectTokens.Equals | src/Workspaces/Core/Portable/Utilities/ObjectPools/PooledObjectToken.cs:34-37 | two tokens are equal exactly when they are the same token |
| PooledObjectTokens.Eq | src/Workspaces/Core/Portable/Utilities/ObjectPools/PooledObjectToken.cs:16-19 | `==` holds exactly when the values agree |
| PooledObjectTokens.Neq | src/Workspaces/Core/Portable/Utilities/ObjectPools/PooledObjectToken.cs:21-24 | `!=` holds exactly when the values differ |
| PooledObjectTokens.EqualsObject | src/Workspaces/Core/Portable/Utilities/ObjectPools/PooledObjectToken.cs:26-32 | an object equals a token exactly when it is that token boxed; any other object or null is unequal |
| PooledObjectTokens.GetHashCode | src/Workspaces/Core/Portable/Utilities/ObjectPools/PooledObjectToken.cs:39-42 | the hash code determines the token: the token built from it is the token itself |
| PooledObjectTokens.NeqIsNotEq | src/Workspaces/Core/Portable/Utilities/ObjectPools/PooledObjectToken.cs:16-24 | `!=` is the negation of `==` |
| PooledObjectTokens.EqIsEquivalence | src/Workspaces/Core/Portable/Utilities/ObjectPools/PooledObjectToken.cs:16-19 | `==` is reflexive, symmetric and transitive |
| PooledObjectTokens.EqualsOverloadsAgree | src/Workspaces/Core/Portable/Utilities/ObjectPools/PooledObjectToken.cs:16-37 | `Equals(object)` on a boxed token, `Equals(token)` and `==` agree |
| PooledObjectTokens.HashCodeAgreesWithEquality | src/Workspaces/Core/Portable/Utilities/ObjectPools/PooledObjectToken.cs:34-42 | equal tokens have equal hash codes, and equal hash codes mean equal tokens |
| PoolableObjects.NextToken | src/Workspaces/Core/Portable/Utilities/ObjectPools/IPoolableObject.cs:16-22 | the next token differs from the current one and is never `None` |
| PoolableObjects.PoolableObject.Token | src/Workspaces/Core/Portable/Utilities/ObjectPools/IPoolableObject.cs:7-14 | the current token is read back |
| PoolableObjects.PoolableObject.Initialize | src/Workspaces/Core/Portable/Utilities/ObjectPools/IPoolableObject.cs:16-22 | a token-supporting object gets a new, different token; other objects keep theirs; nothing else changes |
| PoolableObjects.PoolableObject.Release | src/Workspaces/Core/Portable/Utilities/ObjectPools/IPoolableObject.cs:24-34 | the result says whether the object may go back to the pool; a token-supporting object gets a new, different token |
| PoolableObjects.CapturedTokenGoesStale | src/Workspaces/Core/Portable/Utilities/ObjectPools/IPoolableObject.cs:24-34 | a token captured before release no longer equals the object's token afterwards |
| PooledObjects.ObjectPool.AllocateAndClear | src/Workspaces/Core/Portable/Utilities/ObjectPools/PooledObject.cs:83-86 | an object comes out of the free multiset when there is one, or is freshly made with the `None` token, and is empty; every free object keeps its token and reusability, and every other free object keeps its contents |
| PooledObjects.ObjectPool.ClearAndFree | src/Workspaces/Core/Portable/Utilities/ObjectPools/PooledObject.cs:88-91 | the object is cleared and added back to the free multiset, its token untouched |
| PooledObjects.Allocator | src/Workspaces/Core/Portable/Utilities/ObjectPools/PooledObject.cs:83-86 | an object from the pool, cleared and paired with the `None` token; the free objects keep their tokens, and all but the one taken keep their contents |
| PooledObjects.Releaser | src/Workspaces/Core/Portable/Utilities/ObjectPools/PooledObject.cs:88-91 | the object goes back to the pool, cleared, with its token and reusability kept |
| PooledObjects.PoolableReleaser | src/Workspaces/Core/Portable/Utilities/ObjectPools/IPoolableObject.cs:24-34 | a releaser that honours `Release`: an `IPoolableObject` has its token moved on (if it supports tokens) and goes back cleared only when `Release` says it may, otherwise it is dropped with the pool unchanged; any other object goes back cleared |
| PooledObjects.PooledObject.Create | src/Workspaces/Core/Portable/Utilities/ObjectPools/PooledObject.cs:51-54 | the wrapper holds the built-in releaser, a cleared object taken from the pool and the allocator's `None` token; the free objects keep their tokens, and all but the one taken keep their contents |
| PooledObjects.PooledObject.FromAllocation | src/Workspaces/Core/Portable/Utilities/ObjectPools/PooledObject.cs:19-24 | the wrapper holds exactly the releaser it was given, and the pool, object and token an allocator returned |
| PooledObjects.PooledObject.Copy | src/Workspaces/Core/Portable/Utilities/ObjectPools/PooledObject.cs:12-17 | a copy of the struct holds the same releaser, pool, token and object |
| PooledObjects.PooledObject.Object | src/Workspaces/Core/Portable/Utilities/ObjectPools/PooledObject.cs:26-39 | in a debug build, use after release is reported exactly when the token is not `None`, the object is poolable and its token has changed; otherwise the held object is returned |
| PooledObjects.PooledObject.Dispose | src/Workspaces/Core/Portable/Utilities/ObjectPools/PooledObject.cs:41-48 | a held object is passed once to the wrapper's own releaser, and the wrapper no longer holds it; with the built-in releaser it goes back to the pool cleared, token and reusability kept; with the `IPoolableObject` releaser its token moves on and it goes back cleared only if reusable, else is dropped; a second dispose leaves the pool unchanged |
| PooledObjects.DisposeTwiceReleasesOnce | src/Workspaces/Core/Portable/Utilities/ObjectPools/PooledObject.cs:41-48 | disposing one wrapper twice returns its object to the pool once |
| PooledObjects.CopiesReleaseIndependently | src/Workspaces/Core/Portable/Utilities/ObjectPools/PooledObject.cs:41-48 | two copies of a wrapper each return the object, so the pool receives it twice |
| PooledObjects.ReleasedCopyIsDetected | src/Workspaces/Core/Portable/Utilities/ObjectPools/PooledObject.cs:26-48 | with the `IPoolableObject` releaser, disposing one copy makes another copy's `Object` report use after release in a debug build; a reusable object is back in the pool, an unfit one is not |
| PooledObjects.UseAfterReleaseDetected | src/Workspaces/Core/Portable/Utilities/ObjectPools/PooledObject.cs:26-39 | after the object is released its wrapper reports use after release in a debug build, and returns the object in a release build |
| AsyncLazyInitializers.Initialize | src/Workspaces/Core/Portable/Utilities/AsyncLazyInitializer.cs:32-91 | no contract of its own: the reference outcome of one call, the fast path, then the null-factory and null-result errors, then the compare-exchange; `InitializedSlotIsReturned`, `SuccessPublishesResult`, `ErrorsAreExactly`, `FirstPublisherWins` and `InitializationIsIdempotent` state its properties, and `EnsureInitialized` is proved equal to it |
| AsyncLazyInitializers.SlotAtExchange | src/Workspaces/Core/Portable/Utilities/AsyncLazyInitializer.cs:90 | the compare-exchange keeps a filled slot and otherwise holds what another thread published |
| AsyncLazyInitializers.InitializedSlotIsReturned | src/Workspaces/Core/Portable/Utilities/AsyncLazyInitializer.cs:35-40 | an initialized slot is returned without calling the factory, and the slot is unchanged |
| AsyncLazyInitializers.SuccessPublishesResult | src/Workspaces/Core/Portable/Utilities/AsyncLazyInitializer.cs:84-90 | a success leaves the slot holding exactly the value returned |
| AsyncLazyInitializers.ErrorsAreExactly | src/Workspaces/Core/Portable/Utilities/AsyncLazyInitializer.cs:26-31 | null-reference exactly for an empty slot and a null factory; invalid-operation exactly when the factory returns null; on error the slot is untouched |
| AsyncLazyInitializers.FirstPublisherWins | src/Workspaces/Core/Portable/Utilities/AsyncLazyInitializer.cs:90 | with no rival the factory's value is published and returned; otherwise the rival's value is returned and kept |
| AsyncLazyInitializers.InitializationIsIdempotent | src/Workspaces/Core/Portable/Utilities/AsyncLazyInitializer.cs:32-43 | after a success, initializing again with any factory returns the same value and state |
| AsyncLazyInitializers.SlotOnlyEverHoldsPublishedValues | src/Workspaces/Core/Portable/Utilities/AsyncLazyInitializer.cs:84-90 | a filled slot never changes; an empty slot only ever receives the factory's value or the rival's |
| AsyncLazyInitializers.EnsureInitializedCore | src/Workspaces/Core/Portable/Utilities/AsyncLazyInitializer.cs:81-91 | the slow path's result and new slot are those of the initialization function |
| AsyncLazyInitializers.EnsureInitialized | src/Workspaces/Core/Portable/Utilities/AsyncLazyInitializer.cs:32-43 | a null accessor fails with null-reference; otherwise result and slot are those of the initialization function |
| AsyncLazyInitializers.EnsureInitializedWithState | src/Workspaces/Core/Portable/Utilities/AsyncLazyInitializer.cs:61-72 | the same for the overload that passes a state to accessor and factory |
| HashFunctions.ConstantsAsDeclared | src/ExpressionEvaluator/Core/Source/ResultProvider/Helpers/HashFunctions.cs:14-23 | the FNV offset bias, FNV prime and combine multiplier read as the declared signed 32-bit values; both multipliers are odd and have inverses modulo 2^32 |
| HashFunctions.Combine | src/ExpressionEvaluator/Core/Source/ResultProvider/Helpers/HashFunctions.cs:21-24 | no contract of its own: `currentKey * 0xA5555529 + newKey` in wrapping 32-bit arithmetic; `UncombineCombine`, `NewKeyOfCombine` and the two injectivity lemmas state that neither argument is lost |
| HashFunctions.UncombineCombine | src/ExpressionEvaluator/Core/Source/ResultProvider/Helpers/HashFunctions.cs:21-24 | with the new key known, the current key is recovered from a combined hash |
| HashFunctions.NewKeyOfCombine | src/ExpressionEvaluator/Core/Source/ResultProvider/Helpers/HashFunctions.cs:21-24 | with the current key known, the new key is recovered from a combined hash |
| HashFunctions.CombineInjectiveInCurrentKey | src/ExpressionEvaluator/Core/Source/ResultProvider/Helpers/HashFunctions.cs:21-24 | for a fixed new key, distinct current keys give distinct combined hashes |
| HashFunctions.CombineInjectiveInNewKey | src/ExpressionEvaluator/Core/Source/ResultProvider/Helpers/HashFunctions.cs:21-24 | for a fixed current key, distinct new keys give distinct combined hashes |
| HashFunctions.CombineFnvHash | src/ExpressionEvaluator/Core/Source/ResultProvider/Helpers/HashFunctions.cs:26-29 | no contract of its own: the hash xor the zero-extended character, times the FNV prime, wrapping; `UncombineCombineFnvHash` and `CombineFnvHashInjective` state that the step is invertible |
| HashFunctions.UncombineCombineFnvHash | src/ExpressionEvaluator/Core/Source/ResultProvider/Helpers/HashFunctions.cs:26-29 | with the character known, the previous hash is recovered from an FNV step |
| HashFunctions.CombineFnvHashInjective | src/ExpressionEvaluator/Core/Source/ResultProvider/Helpers/HashFunctions.cs:26-29 | an FNV step is injective in the hash for a fixed character, and in the character for a fixed hash |
| NullableKeywordRecommender.TargetToken | src/Features/CSharp/Portable/Completion/KeywordRecommenders/NullableKeywordRecommender.cs:27 | the target token is the last token, and exists exactly when there are tokens |
| NullableKeywordRecommender.PreviousToken | src/Features/CSharp/Portable/Completion/KeywordRecommenders/NullableKeywordRecommender.cs:28-30 | the previous token lies strictly before; with skipped tokens included it is the one just before, and without them it is never a skipped token |
| NullableKeywordRecommender.IsWarningAction | src/Features/CSharp/Portable/Completion/KeywordRecommenders/NullableKeywordRecommender.cs:34-35 | no contract of its own: the token kind is `disable`, `restore` or `enable` |
| NullableKeywordRecommender.EndsWithPragmaWarningAction | src/Features/CSharp/Portable/Completion/KeywordRecommenders/NullableKeywordRecommender.cs:32-38 | no contract of its own: the reference reading of the rule, the last four tokens are `#`, `pragma`, `warning` and an action; `IsValidContext` is proved equivalent to it outside a preprocessor keyword context |
| NullableKeywordRecommender.IsValidContext | src/Features/CSharp/Portable/Completion/KeywordRecommenders/NullableKeywordRecommender.cs:19-38 | valid exactly in a preprocessor keyword context, or when the last four tokens are `#`, `pragma`, `warning` and one of `disable`/`restore`/`enable` |
| NullableKeywordRecommender.OnlyLastFourTokensMatter | src/Features/CSharp/Portable/Completion/KeywordRecommenders/NullableKeywordRecommender.cs:27-38 | tokens before the last four do not change the answer |
| NullableKeywordRecommender.SkippedFlagsDoNotMatter | src/Features/CSharp/Portable/Completion/KeywordRecommenders/NullableKeywordRecommender.cs:28-30 | whether tokens are skipped does not change the answer, since skipped tokens are included |
| NullableKeywordRecommender.NearestTokenMustBeAnAction | src/Features/CSharp/Portable/Completion/KeywordRecommenders/NullableKeywordRecommender.cs:34-35 | outside a preprocessor context, a last token that is not a warning action rules the keyword out |
| NullableKeywordRecommender.PragmaWarningDisableExample | src/Features/CSharp/Portable/Completion/KeywordRecommenders/NullableKeywordRecommender.cs:33-38 | `# pragma warning disable` admits the keyword; `# pragma warning` without an action does not |
| ContextVariableArgumentProviders.RequireExactType | src/Features/Core/Portable/Completion/Providers/AbstractContextVariableArgumentProvider.cs:25-26 | no contract of its own: an exact type is required when the parameter is of a special type or is passed by reference |
| ContextVariableArgumentProviders.IsNewConversionSameOrBetter | src/Features/Core/Portable/Completion/Providers/AbstractContextVariableArgumentProvider.cs:189-198 | a new conversion is worse exactly when it loses identity or loses implicitness |
| ContextVariableArgumentProviders.ConversionSameOrBetterIsRank | src/Features/Core/Portable/Completion/Providers/AbstractContextVariableArgumentProvider.cs:189-198 | for well-formed conversions, same-or-better means a rank (identity > implicit > explicit) at least as high |
| ContextVariableArgumentProviders.ConversionSameOrBetterIsPreorder | src/Features/Core/Portable/Completion/Providers/AbstractContextVariableArgumentProvider.cs:189-198 | same-or-better is reflexive and transitive |
| ContextVariableArgumentProviders.IsNewNameSameOrBetter | src/Features/Core/Portable/Completion/Providers/AbstractContextVariableArgumentProvider.cs:200-209 | a name is same-or-better exactly when its rank (exact match > case-insensitive match > other) is at least the best's |
| ContextVariableArgumentProviders.Qualifies | src/Features/Core/Portable/Completion/Providers/AbstractContextVariableArgumentProvider.cs:100-119 | no contract of its own: the filters a direct candidate passes, a type, the name test for special types, the exact type when required, an implicit conversion; `CheckOuterCandidate` states that a candidate is taken only if it qualifies |
| ContextVariableArgumentProviders.CheckOuterCandidate | src/Features/Core/Portable/Completion/Providers/AbstractContextVariableArgumentProvider.cs:100-132 | the candidate replaces the best exactly when it passes the name, exact-type and implicit-conversion gates and is same-or-better on conversion and name; otherwise the best is kept |
| ContextVariableArgumentProviders.SkipsMemberKindAsWritten | src/Features/Core/Portable/Completion/Providers/AbstractContextVariableArgumentProvider.cs:158 | no contract of its own: the member-kind test as C# parses it, `(not Property) or Field`; `AsWrittenSkipsFields` states that it skips exactly the non-properties, fields included |
| ContextVariableArgumentProviders.SkipsMemberKind | src/Features/Core/Portable/Completion/Providers/AbstractContextVariableArgumentProvider.cs:158 | no contract of its own: the member-kind test as intended, `not (Property or Field)`; `IntendedKeepsFieldsAndProperties` states that it keeps exactly fields and properties |
| ContextVariableArgumentProviders.AsWrittenSkipsFields | src/Features/Core/Portable/Completion/Providers/AbstractContextVariableArgumentProvider.cs:158 | the kind test as written skips every member that is not a property, fields included |
| ContextVariableArgumentProviders.IntendedKeepsFieldsAndProperties | src/Features/Core/Portable/Completion/Providers/AbstractContextVariableArgumentProvider.cs:158 | the intended kind test keeps exactly fields and properties |
| ContextVariableArgumentProviders.StopsScan | src/Features/Core/Portable/Completion/Providers/AbstractContextVariableArgumentProvider.cs:152-156 | no contract of its own: a special-typed member whose name differs from the parameter's, ignoring case; `ScanStopsAtSpecialMismatch` states that the member scan ends there |
| ContextVariableArgumentProviders.NestedQualifies | src/Features/Core/Portable/Completion/Providers/AbstractContextVariableArgumentProvider.cs:158-173 | no contract of its own: the filters a member passes to become a nested candidate, the kind test, a type, the exact type when required, an implicit conversion; `ScanMembers` states that only such a member becomes the nested candidate |
| ContextVariableArgumentProviders.ScanMembers | src/Features/Core/Portable/Completion/Providers/AbstractContextVariableArgumentProvider.cs:149-186 | a nested candidate, once found, is never lost; a new one pairs the outer symbol with a qualifying member of the list |
| ContextVariableArgumentProviders.ScanStopsAtSpecialMismatch | src/Features/Core/Portable/Completion/Providers/AbstractContextVariableArgumentProvider.cs:152-156 | a special-typed member whose name does not match ends the scan: nothing after it counts |
| ContextVariableArgumentProviders.AsWrittenNeverNestsAField | src/Features/Core/Portable/Completion/Providers/AbstractContextVariableArgumentProvider.cs:158-162 | with the kind test as written, every nested candidate found is a property |
| ContextVariableArgumentProviders.CheckInnerCandidates | src/Features/Core/Portable/Completion/Providers/AbstractContextVariableArgumentProvider.cs:134-187 | members of `Nullable<T>` and lookups with no enclosing type are not scanned; a new nested candidate is a qualifying accessible member of the candidate's type |
| ContextVariableArgumentProviders.CheckCandidate | src/Features/Core/Portable/Completion/Providers/AbstractContextVariableArgumentProvider.cs:85-98 | the best changes only to a qualifying candidate; the nested candidate changes only when members are checked and there is no best yet, and is never lost |
| ContextVariableArgumentProviders.ScanSymbols | src/Features/Core/Portable/Completion/Providers/AbstractContextVariableArgumentProvider.cs:36-68 | no contract of its own: one `foreach` over the symbols of a phase, each checked by `CheckCandidate` with the phase's flags; the `Scan*` lemmas state its properties, and `ScanSymbolsInPlace` is proved equal to it |
| ContextVariableArgumentProviders.ScanFindsDirectIffOneQualifies | src/Features/Core/Portable/Completion/Providers/AbstractContextVariableArgumentProvider.cs:36-68 | a scan ends with a best symbol exactly when it started with one or some symbol of its kinds qualifies |
| ContextVariableArgumentProviders.ScanBestIsADirectCandidate | src/Features/Core/Portable/Completion/Providers/AbstractContextVariableArgumentProvider.cs:36-68 | the best after a scan is the starting best or a qualifying symbol from the list |
| ContextVariableArgumentProviders.ScanKeepsAnExactName | src/Features/Core/Portable/Completion/Providers/AbstractContextVariableArgumentProvider.cs:200-209 | once the best has the parameter's exact name, every later best has it too |
| ContextVariableArgumentProviders.ScanKeepsAnIdentityConversion | src/Features/Core/Portable/Completion/Providers/AbstractContextVariableArgumentProvider.cs:189-198 | once the best converts by identity, every later best does too |
| ContextVariableArgumentProviders.ScanKeepsANestedCandidate | src/Features/Core/Portable/Completion/Providers/AbstractContextVariableArgumentProvider.cs:175-185 | a nested candidate, once found, survives the rest of the scan |
| ContextVariableArgumentProviders.Provide | src/Features/Core/Portable/Completion/Providers/AbstractContextVariableArgumentProvider.cs:29-82 | no contract of its own: the best parameter or local, else the best field or property, else the nested candidate, else nothing; `LocalsComeFirst`, `DirectSuggestionQualifies`, `DirectSuggestionIffOneQualifies` and `NestedOnlyWithoutDirect` state its properties |
| ContextVariableArgumentProviders.LocalsComeFirst | src/Features/Core/Portable/Completion/Providers/AbstractContextVariableArgumentProvider.cs:36-53 | when a parameter or local qualifies, the suggestion is a qualifying parameter or local |
| ContextVariableArgumentProviders.DirectSuggestionQualifies | src/Features/Core/Portable/Completion/Providers/AbstractContextVariableArgumentProvider.cs:49-74 | a direct suggestion is a symbol in scope that qualifies in its phase |
| ContextVariableArgumentProviders.DirectSuggestionIffOneQualifies | src/Features/Core/Portable/Completion/Providers/AbstractContextVariableArgumentProvider.cs:36-74 | a direct suggestion is made exactly when some symbol in scope qualifies directly |
| ContextVariableArgumentProviders.NestedOnlyWithoutDirect | src/Features/Core/Portable/Completion/Providers/AbstractContextVariableArgumentProvider.cs:70-80 | `outer.inner` is suggested only when no symbol qualifies directly |
| ContextVariableArgumentProviders.ScanInnerCandidates | src/Features/Core/Portable/Completion/Providers/AbstractContextVariableArgumentProvider.cs:134-187 | the member loop, early return included, computes the nested-scan function |
| ContextVariableArgumentProviders.ScanSymbolsInPlace | src/Features/Core/Portable/Completion/Providers/AbstractContextVariableArgumentProvider.cs:36-68 | each symbol loop computes the scan function |
| ContextVariableArgumentProviders.ArgumentContext.ProvideArgument | src/Features/Core/Portable/Completion/Providers/AbstractContextVariableArgumentProvider.cs:8-82 | an argument already in code is left alone; otherwise the default value becomes the suggestion's text (`name` or `outer.inner`), or stays as it was when there is none |
| ContextVariableArgumentProviders.AsWrittenMissesField | src/Features/Core/Portable/Completion/Providers/AbstractContextVariableArgumentProvider.cs:158-162 | with the kind test as written, a local whose field fits the parameter yields no suggestion |
| ContextVariableArgumentProviders.IntendedSuggestsField | src/Features/Core/Portable/Completion/Providers/AbstractContextVariableArgumentProvider.cs:149-186 | with the intended kind test, the same program yields `holder.count` |
| TypeSyntaxSimplifierScopes.Peek | src/Features/CSharp/Portable/Diagnostics/Analyzers/TypeSyntaxSimplifierWalker_Scopes.cs:73-74 | the top is the last element: popping it and pushing it back restores the stack |
| TypeSyntaxSimplifierScopes.Pop | src/Features/CSharp/Portable/Diagnostics/Analyzers/TypeSyntaxSimplifierWalker_Scopes.cs:76-77 | exactly the last element is removed; every other element keeps its place |
| TypeSyntaxSimplifierScopes.PopUndoesPush | src/Features/CSharp/Portable/Diagnostics/Analyzers/TypeSyntaxSimplifierWalker_Scopes.cs:73-77 | after a push, `Peek` gives the pushed element and `Pop` gives the old stack |
| TypeSyntaxSimplifierScopes.ResolvedAlias | src/Features/CSharp/Portable/Diagnostics/Analyzers/TypeSyntaxSimplifierWalker_Scopes.cs:92-99 | a using contributes an alias exactly when it has one, binds with no candidate symbols, and binds to a namespace or type |
| TypeSyntaxSimplifierScopes.AliasesOf | src/Features/CSharp/Portable/Diagnostics/Analyzers/TypeSyntaxSimplifierWalker_Scopes.cs:90-104 | the names only grow; names covering the aliases stay covering; every alias recorded was there before or comes from a using that resolves to it |
| TypeSyntaxSimplifierScopes.LastAliasWins | src/Features/CSharp/Portable/Diagnostics/Analyzers/TypeSyntaxSimplifierWalker_Scopes.cs:98-101 | a symbol aliased by several usings maps to the alias of the last of them |
| TypeSyntaxSimplifierScopes.AliasUntouched | src/Features/CSharp/Portable/Diagnostics/Analyzers/TypeSyntaxSimplifierWalker_Scopes.cs:90-104 | a symbol no using resolves to keeps its alias |
| TypeSyntaxSimplifierScopes.RecordedNamesAreAdded | src/Features/CSharp/Portable/Diagnostics/Analyzers/TypeSyntaxSimplifierWalker_Scopes.cs:101 | the name of every symbol a using aliases is in the resulting names |
| TypeSyntaxSimplifierScopes.NamesOf | src/Features/CSharp/Portable/Diagnostics/Analyzers/TypeSyntaxSimplifierWalker_Scopes.cs:159-165 | the set holds exactly the names of the symbols |
| TypeSyntaxSimplifierScopes.TopNamesCoverEveryScope | src/Features/CSharp/Portable/Diagnostics/Analyzers/TypeSyntaxSimplifierWalker_Scopes.cs:84-88 | in nested scopes the top names set holds the name of every symbol aliased in any scope on the stack |
| TypeSyntaxSimplifierScopes.Walker.constructor | src/Features/CSharp/Portable/Diagnostics/Analyzers/TypeSyntaxSimplifierWalker_Scopes.cs:42-63 | the four stacks start empty, with no diagnostics and the cref flag clear |
| TypeSyntaxSimplifierScopes.Walker.AddAliases | src/Features/CSharp/Portable/Diagnostics/Analyzers/TypeSyntaxSimplifierWalker_Scopes.cs:79-105 | the loop computes the alias fold over the usings, starting from the inherited names; the new names include the enclosing top set and cover the new aliases |
| TypeSyntaxSimplifierScopes.Walker.AddNamesInScope | src/Features/CSharp/Portable/Diagnostics/Analyzers/TypeSyntaxSimplifierWalker_Scopes.cs:156-166 | the two loops give the names of the namespaces and types, and of the static members, in scope at the position |
| TypeSyntaxSimplifierScopes.Walker.PushNamespaceScope | src/Features/CSharp/Portable/Diagnostics/Analyzers/TypeSyntaxSimplifierWalker_Scopes.cs:137-146 | each of the four stacks grows by one entry over its old contents, the entries being the aliases and names just computed; the scopes stay nested |
| TypeSyntaxSimplifierScopes.Walker.PopNamespaceScope | src/Features/CSharp/Portable/Diagnostics/Analyzers/TypeSyntaxSimplifierWalker_Scopes.cs:150-153 | each of the four stacks loses exactly its top entry; the scopes stay nested |
| TypeSyntaxSimplifierScopes.Walker.PushTypeScope | src/Features/CSharp/Portable/Diagnostics/Analyzers/TypeSyntaxSimplifierWalker_Scopes.cs:185-187 | only the declaration-name and static-name stacks grow, by the names in scope at the position |
| TypeSyntaxSimplifierScopes.Walker.PopTypeScope | src/Features/CSharp/Portable/Diagnostics/Analyzers/TypeSyntaxSimplifierWalker_Scopes.cs:191-192 | only the declaration-name and static-name stacks lose their top entry |
| TypeSyntaxSimplifierScopes.Walker.EnterCref | src/Features/CSharp/Portable/Diagnostics/Analyzers/TypeSyntaxSimplifierWalker_Scopes.cs:209-210 | the old flag is saved and the flag is set |
| TypeSyntaxSimplifierScopes.Walker.ExitCref | src/Features/CSharp/Portable/Diagnostics/Analyzers/TypeSyntaxSimplifierWalker_Scopes.cs:212 | the saved flag is restored |
| TypeSyntaxSimplifierScopes.Walker.Dispose | src/Features/CSharp/Portable/Diagnostics/Analyzers/TypeSyntaxSimplifierWalker_Scopes.cs:65-71 | all four stacks are cleared and returned; the diagnostics and the cref flag are kept |
| TypeSyntaxSimplifierBinding.LookupName | src/Features/CSharp/Portable/Diagnostics/Analyzers/TypeSyntaxSimplifierWalker_Binding.cs:38-41 | no contract of its own: namespaces and types at the node's start in a declaration context, all symbols there otherwise |
| TypeSyntaxSimplifierBinding.GetRightmostName | src/Features/CSharp/Portable/Diagnostics/Analyzers/TypeSyntaxSimplifierWalker_Binding.cs:181 | no contract of its own: the right-hand simple name of a name or member access, none for any other expression; `TryGetPartsOfQualifiedName` and `SimplifiableHasRightmostName` state how it relates to the parts |
| TypeSyntaxSimplifierBinding.TryGetPartsOfQualifiedName | src/Features/CSharp/Portable/Diagnostics/Analyzers/TypeSyntaxSimplifierWalker_Binding.cs:363-370 | parts exist exactly for `A.B`, `X::B` and `e.B`; they are (left, right), (alias, name) and (expression, name); the right part is the rightmost name |
| TypeSyntaxSimplifierBinding.Leftmost | src/Features/CSharp/Portable/Diagnostics/Analyzers/TypeSyntaxSimplifierWalker_Binding.cs:224-229 | the start of a member-access chain is not itself a member access, and lies inside the chain |
| TypeSyntaxSimplifierBinding.IsSimplifiableMemberAccess | src/Features/CSharp/Portable/Diagnostics/Analyzers/TypeSyntaxSimplifierWalker_Binding.cs:222-234 | true exactly when the chain starts from an alias-qualified, identifier or generic name |
| TypeSyntaxSimplifierBinding.SimplifiableHasRightmostName | src/Features/CSharp/Portable/Diagnostics/Analyzers/TypeSyntaxSimplifierWalker_Binding.cs:222-234 | in a simplifiable member access the accessed expression has a rightmost name |
| TypeSyntaxSimplifierBinding.GetNamespaceOrTypeSymbol | src/Features/CSharp/Portable/Diagnostics/Analyzers/TypeSyntaxSimplifierWalker_Binding.cs:245-254 | a symbol is given exactly when the binding has no candidates and is a namespace or type, and it is that binding |
| TypeSyntaxSimplifierBinding.Resolve | src/Features/CSharp/Portable/Diagnostics/Analyzers/TypeSyntaxSimplifierWalker_Binding.cs:287 | a cache that agrees with the lookup ends holding the lookup's result |
| TypeSyntaxSimplifierBinding.ScanForAliasOf | src/Features/CSharp/Portable/Diagnostics/Analyzers/TypeSyntaxSimplifierWalker_Binding.cs:301-307 | true exactly when some symbol found is an alias of the symbol |
| TypeSyntaxSimplifierBinding.ScanForDefinitionOf | src/Features/CSharp/Portable/Diagnostics/Analyzers/TypeSyntaxSimplifierWalker_Binding.cs:412-419 | true exactly when some symbol found has the same original definition |
| TypeSyntaxSimplifierBinding.PredefinedTypeReplacement | src/Features/CSharp/Portable/Diagnostics/Analyzers/TypeSyntaxSimplifierWalker_Binding.cs:314-340 | reported, over the whole node, exactly when the option for the context is on, the name is one of the 15 framework names, the parent is not a using directive, and the node binds to a type with a keyword |
| TypeSyntaxSimplifierBinding.NullableReplacement | src/Features/CSharp/Portable/Diagnostics/Analyzers/TypeSyntaxSimplifierWalker_Binding.cs:342-361 | reported, over the whole node, exactly in a declaration context, for the name `Nullable`, outside a using directive, when the node binds to a `Nullable<T>` |
| TypeSyntaxSimplifierBinding.FindAlias | src/Features/CSharp/Portable/Diagnostics/Analyzers/TypeSyntaxSimplifierWalker_Binding.cs:292-309 | a found alias names an alias of the symbol at the node, and is the name itself when a match is demanded |
| TypeSyntaxSimplifierBinding.FindAliasIsInnermost | src/Features/CSharp/Portable/Diagnostics/Analyzers/TypeSyntaxSimplifierWalker_Binding.cs:292-309 | an alias is found exactly when some scope offers one, and it is the innermost such scope's: no scope inside it offers one |
| TypeSyntaxSimplifierBinding.AddAliasDiagnostic | src/Features/CSharp/Portable/Diagnostics/Analyzers/TypeSyntaxSimplifierWalker_Binding.cs:256-277 | nothing for an identifier already spelled as the alias; only the left part when a qualified node's right identifier is the alias; otherwise the whole node |
| TypeSyntaxSimplifierBinding.AliasReplacement | src/Features/CSharp/Portable/Diagnostics/Analyzers/TypeSyntaxSimplifierWalker_Binding.cs:279-312 | reported only when the name is in the top aliased-names set and the node binds to a namespace or type |
| TypeSyntaxSimplifierBinding.QuickCheckKeepsEveryAlias | src/Features/CSharp/Portable/Diagnostics/Analyzers/TypeSyntaxSimplifierWalker_Binding.cs:283-285 | the quick check against the top names set turns away no alias the scope search would find for a symbol spelled as the name |
| TypeSyntaxSimplifierBinding.RightSideReplacement | src/Features/CSharp/Portable/Diagnostics/Analyzers/TypeSyntaxSimplifierWalker_Binding.cs:372-422 | reported, over the left part, exactly when the name is in scope, the node binds, the using-directive rules do not keep it, and the right name alone finds the same original definition |
| TypeSyntaxSimplifierBinding.UsingDirectiveNamesKept | src/Features/CSharp/Portable/Diagnostics/Analyzers/TypeSyntaxSimplifierWalker_Binding.cs:388-407 | inside a using directive, a namespace-bound qualified name, or any name in a `using static`, is never reduced to its right side; a using's own name never becomes a keyword or `T?` |
| TypeSyntaxSimplifierBinding.NameofAliasCoversExpression | src/Features/CSharp/Portable/Diagnostics/Analyzers/TypeSyntaxSimplifierWalker_Binding.cs:201-211 | in `nameof(e.C)` an alias is spelled `C`, so the report covers only `e` |
| TypeSyntaxSimplifierBinding.QualifiedNameReportsOnce | src/Features/CSharp/Portable/Diagnostics/Analyzers/TypeSyntaxSimplifierWalker_Binding.cs:90-114 | a simplified qualified name is reported once and its children are not visited; the report covers the name or its left part |
| TypeSyntaxSimplifierBinding.AddDiagnostic | src/Features/CSharp/Portable/Diagnostics/Analyzers/TypeSyntaxSimplifierWalker_Binding.cs:424-429 | one diagnostic is appended, and the result is true |
| TypeSyntaxSimplifierBinding.Report | src/Features/CSharp/Portable/Diagnostics/Analyzers/TypeSyntaxSimplifierWalker_Binding.cs:424-429 | an attempt's report, if any, is appended, and the result says whether there was one |
| TypeSyntaxSimplifierBinding.FindAliasInScopes | src/Features/CSharp/Portable/Diagnostics/Analyzers/TypeSyntaxSimplifierWalker_Binding.cs:292-309 | the reverse loop over the alias stack computes the innermost-first search |
| TypeSyntaxSimplifierBinding.TryReplaceWithAlias | src/Features/CSharp/Portable/Diagnostics/Analyzers/TypeSyntaxSimplifierWalker_Binding.cs:279-312 | appends exactly the alias replacement's report and returns whether there was one; the symbol cache stays in agreement with the lookup |
| TypeSyntaxSimplifierBinding.TryReplaceWithPredefinedType | src/Features/CSharp/Portable/Diagnostics/Analyzers/TypeSyntaxSimplifierWalker_Binding.cs:314-340 | the same for the predefined-type replacement |
| TypeSyntaxSimplifierBinding.TryReplaceWithNullable | src/Features/CSharp/Portable/Diagnostics/Analyzers/TypeSyntaxSimplifierWalker_Binding.cs:342-361 | the same for the `T?` replacement |
| TypeSyntaxSimplifierBinding.TryReplaceExprWithRightSide | src/Features/CSharp/Portable/Diagnostics/Analyzers/TypeSyntaxSimplifierWalker_Binding.cs:372-422 | the same for the right-side reduction |
| TypeSyntaxSimplifierBinding.IdentifierNameOutcome | src/Features/CSharp/Portable/Diagnostics/Analyzers/TypeSyntaxSimplifierWalker_Binding.cs:43-65 | no contract of its own: the report of `VisitIdentifierName`, the first of its replacements in the source's order that fires; `VisitIdentifierName` is proved to append exactly it |
| TypeSyntaxSimplifierBinding.VisitIdentifierName | src/Features/CSharp/Portable/Diagnostics/Analyzers/TypeSyntaxSimplifierWalker_Binding.cs:43-65 | a name on the right of `.` or `::` is skipped; otherwise a predefined type, failing that an alias: at most the first report is appended |
| TypeSyntaxSimplifierBinding.GenericNameOutcome | src/Features/CSharp/Portable/Diagnostics/Analyzers/TypeSyntaxSimplifierWalker_Binding.cs:67-88 | no contract of its own: the report of `VisitGenericName`, the first of its replacements in the source's order that fires; `VisitGenericName` is proved to append exactly it |
| TypeSyntaxSimplifierBinding.VisitGenericName | src/Features/CSharp/Portable/Diagnostics/Analyzers/TypeSyntaxSimplifierWalker_Binding.cs:67-88 | not on a right side: an alias, failing that `T?`; the result says whether one was reported |
| TypeSyntaxSimplifierBinding.QualifiedNameOutcome | src/Features/CSharp/Portable/Diagnostics/Analyzers/TypeSyntaxSimplifierWalker_Binding.cs:90-109 | no contract of its own: the report of `VisitQualifiedName`, the first of its replacements in the source's order that fires; `VisitQualifiedName` is proved to append exactly it |
| TypeSyntaxSimplifierBinding.VisitQualifiedName | src/Features/CSharp/Portable/Diagnostics/Analyzers/TypeSyntaxSimplifierWalker_Binding.cs:90-109 | a predefined type, then an alias, then `T?`, then the right side, stopping at the first report |
| TypeSyntaxSimplifierBinding.AliasQualifiedNameOutcome | src/Features/CSharp/Portable/Diagnostics/Analyzers/TypeSyntaxSimplifierWalker_Binding.cs:116-129 | no contract of its own: the report of `VisitAliasQualifiedName`, the first of its replacements in the source's order that fires; `VisitAliasQualifiedName` is proved to append exactly it |
| TypeSyntaxSimplifierBinding.VisitAliasQualifiedName | src/Features/CSharp/Portable/Diagnostics/Analyzers/TypeSyntaxSimplifierWalker_Binding.cs:116-129 | a predefined type, then an alias, then the name without `X::`, stopping at the first report |
| TypeSyntaxSimplifierBinding.NameofOutcome | src/Features/CSharp/Portable/Diagnostics/Analyzers/TypeSyntaxSimplifierWalker_Binding.cs:201-220 | no contract of its own: the report of `SimplifyMemberAccessInNameofExpression`, the first of its replacements in the source's order that fires; `SimplifyMemberAccessInNameofExpression` is proved to append exactly it |
| TypeSyntaxSimplifierBinding.SimplifyMemberAccessInNameofExpression | src/Features/CSharp/Portable/Diagnostics/Analyzers/TypeSyntaxSimplifierWalker_Binding.cs:201-220 | an alias only if spelled as the member name, then the member name alone |
| TypeSyntaxSimplifierBinding.ExpressionOutcome | src/Features/CSharp/Portable/Diagnostics/Analyzers/TypeSyntaxSimplifierWalker_Binding.cs:170-199 | no contract of its own: the report of `SimplifyExpressionOfMemberAccessExpression`, the first of its replacements in the source's order that fires; `SimplifyExpressionOfMemberAccessExpression` is proved to append exactly it |
| TypeSyntaxSimplifierBinding.SimplifyExpressionOfMemberAccessExpression | src/Features/CSharp/Portable/Diagnostics/Analyzers/TypeSyntaxSimplifierWalker_Binding.cs:170-199 | outside declarations: a predefined type, then an alias, then the expression's own right side |
| TypeSyntaxSimplifierBinding.MemberAccessOutcome | src/Features/CSharp/Portable/Diagnostics/Analyzers/TypeSyntaxSimplifierWalker_Binding.cs:136-165 | no contract of its own: the report of `VisitMemberAccessExpression`, the first of its replacements in the source's order that fires; `VisitMemberAccessExpression` is proved to append exactly it |
| TypeSyntaxSimplifierBinding.VisitMemberAccessExpression | src/Features/CSharp/Portable/Diagnostics/Analyzers/TypeSyntaxSimplifierWalker_Binding.cs:136-165 | only a simplifiable access is tried: the `nameof` simplification first when inside `nameof`, then the accessed expression |
| TypeSyntaxSimplifierBinding.VisitSyntax | src/Features/CSharp/Portable/Diagnostics/Analyzers/TypeSyntaxSimplifierWalker_Binding.cs:43-168 | the visit appends exactly the tree's diagnostics: each node's first report, or, when it has none, those of its children in order |
| TypeSyntaxSimplifierBinding.VisitSimpleName | src/Features/CSharp/Portable/Diagnostics/Analyzers/TypeSyntaxSimplifierWalker_Binding.cs:43-88 | the same for a simple name and its type arguments |
| TypeSyntaxSimplifierBinding.VisitList | src/Features/CSharp/Portable/Diagnostics/Analyzers/TypeSyntaxSimplifierWalker_Binding.cs:87 | the same for a list of nodes, in order |
| TypeSyntaxSimplifierBinding.VisitQualifiedNameNode | src/Features/CSharp/Portable/Diagnostics/Analyzers/TypeSyntaxSimplifierWalker_Binding.cs:90-114 | a qualified name appends exactly its tree's diagnostics: its own report, or else those of its left part and right name |
| TypeSyntaxSimplifierBinding.VisitMemberAccessNode | src/Features/CSharp/Portable/Diagnostics/Analyzers/TypeSyntaxSimplifierWalker_Binding.cs:136-168 | a member access appends exactly its tree's diagnostics: its own report, or else those of its expression and name |
| TypeSyntaxSimplifierWalk.Pushed | src/Features/CSharp/Portable/Diagnostics/Analyzers/TypeSyntaxSimplifierWalker_Scopes.cs:143-144 | a namespace scope adds one entry to the alias stack and to the names stack; popping it gives back the enclosing stacks |
| TypeSyntaxSimplifierWalk.PushKeepsScopesNested | src/Features/CSharp/Portable/Diagnostics/Analyzers/TypeSyntaxSimplifierWalker_Scopes.cs:84-104 | opening a namespace scope keeps the alias scopes nested |
| TypeSyntaxSimplifierWalk.VisitUsings | src/Features/CSharp/Portable/Diagnostics/Analyzers/TypeSyntaxSimplifierWalker_Scopes.cs:57-58 | each using's name is visited as the child of its directive, in order |
| TypeSyntaxSimplifierWalk.EnterNamespaceContext | src/Features/CSharp/Portable/Diagnostics/Analyzers/TypeSyntaxSimplifierWalker_Scopes.cs:128-154 | all four stacks and the cref flag are as they were afterwards; the body's diagnostics are those of the name, usings and members under the pushed scope |
| TypeSyntaxSimplifierWalk.VisitScopeHeader | src/Features/CSharp/Portable/Diagnostics/Analyzers/TypeSyntaxSimplifierWalker_Scopes.cs:148 | a namespace's name and then its usings are visited, appending exactly their diagnostics in that order |
| TypeSyntaxSimplifierWalk.VisitScopeBody | src/Features/CSharp/Portable/Diagnostics/Analyzers/TypeSyntaxSimplifierWalker_Scopes.cs:148 | the base visit of a namespace leaves the stacks and flag unchanged and appends its name's, usings' and members' diagnostics |
| TypeSyntaxSimplifierWalk.VisitTypeDeclaration | src/Features/CSharp/Portable/Diagnostics/Analyzers/TypeSyntaxSimplifierWalker_Scopes.cs:180-205 | the stacks and the flag are as they were afterwards; the members are visited under the enclosing alias scopes |
| TypeSyntaxSimplifierWalk.VisitXmlCrefAttribute | src/Features/CSharp/Portable/Diagnostics/Analyzers/TypeSyntaxSimplifierWalker_Scopes.cs:207-213 | the cref flag is restored to its prior value; the cref's diagnostics are appended |
| TypeSyntaxSimplifierWalk.VisitMember | src/Features/CSharp/Portable/Diagnostics/Analyzers/TypeSyntaxSimplifierWalker_Scopes.cs:177-213 | any member leaves the stacks and flag as they were and appends exactly its diagnostics |
| TypeSyntaxSimplifierWalk.VisitMembers | src/Features/CSharp/Portable/Diagnostics/Analyzers/TypeSyntaxSimplifierWalker_Scopes.cs:148 | the same for a list of members, in order |
| TypeSyntaxSimplifierWalk.VisitCompilationUnit | src/Features/CSharp/Portable/Diagnostics/Analyzers/TypeSyntaxSimplifierWalker_Scopes.cs:168-175 | a fresh walker ends with empty alias stacks and the unit's diagnostics; names are looked up at the first attribute list, else the first using, else the end of the file |

## Left out

- `ReferenceCountedDisposable.cs` is not part of this model. The type is modelled from its tests:
  - The count and the holders are tracked in a shared box.
  - A weak reference made from an already-released handle is taken to be empty, since the tests do not pin this case.
- Concurrency:
  - The atomic counting of the reference-counted box, `Volatile.Read` and `Interlocked.CompareExchange` are sequential here.
  - A value published by another thread at the compare-exchange is a parameter.
- The `async`/`ValueTask` plumbing of `AsyncLazyInitializer` is left out. The factory is absent (a null delegate) or yields a value or null; a factory that throws is not modelled.
- `ObjectPool<T>`'s own code is not part of this model. Its pool is a multiset of free objects.
- The five other `PooledObject.Create` overloads, and their allocator/releaser pairs (stack, queue, set, dictionary, list), behave like the `StringBuilder` one, which is the one modelled.
- `PooledObjects.PooledObject.FromAllocation`: the general constructor's releaser is one of two kinds, the built-in `ClearAndFree` releaser or `PoolableReleaser`, which follows the `IPoolableObject` contract. `PooledObjects.PooledObject.Dispose` runs the stored kind. The effect of any other caller-supplied delegate is not modelled, since a delegate may run arbitrary code.
- `PooledObjects.PooledObject.Object`: `Contract.ThrowIfFalse` is a reported error value, and the `DEBUG` symbol is a parameter.
- `HashFunctions`: the C# `int` is a 32-bit word with an explicit signed reading, and `char` is a 16-bit word.
- `NullableKeywordRecommender`: the syntax context is reduced to the preprocessor flag and the token kinds before the caret. The position and the cancellation token are left out.
- `ContextVariableArgumentProviders`: several things are functions in the environment:
  - the semantic model's lookups;
  - `IsSpecialType`;
  - conversions;
  - accessible members;
  - `OrdinalIgnoreCase` comparison, as a case-folding function.

  `Task` results and cancellation are left out.
- Walker oracles:
  - `SyntaxFacts.IsInNamespaceOrTypeContext` and `IsNameOfArgumentExpression` are functions in the walker's environment.
  - So is the symbol binding of each node.
- `TypeSyntaxSimplifierScopes.Environment.namesInScope`: `TypeSyntaxSimplifierWalker_Binding.cs:381` reads a stack, `_namesInScopeStack`, that the walker does not declare. Its top set is a function of the node here. So the declaration-name and static-name stacks are kept and balanced, but no visit reads them.
- The `_inCref` flag is saved, set and restored, but no modelled code reads it.
- Walker syntax:
  - Syntax is reduced to the shapes the name visits handle. Every other expression is a node with children.
  - Declarations are reduced to namespaces, types, cref attributes and type occurrences.
  - The `->` pointer member access is not modelled.
- Documentation comments: `DefaultVisit` and `VisitMemberDeclaration` reach them through structured trivia. Here they appear as cref-attribute members of the declaration.
- `CSharpSimplifyTypeNamesDiagnosticAnalyzer.CreateDiagnostic` is reduced to a span, an identifier and the declaration flag. Its severity comes from the option set, which is not modelled.
- `TypeSyntaxSimplifierScopes.Walker.Dispose`: returning the stacks to their pools is a flag, `stacksFreed`, plus the cleared stacks.
- The interval tree `SimpleIntervalTree` is not part of this model.

## Findings

| source | as written | input that shows it | evidently intended | confidence | as-written member | corrected member |
|---|---|---|---|---|---|---|
| src/Features/Core/Portable/Completion/Providers/AbstractContextVariableArgumentProvider.cs:158 | `member.Kind is not SymbolKind.Property or SymbolKind.Field` parses as `(is not Property) or Field`, so fields are always skipped in the nested member scan | a parameter `count`; a local `holder` whose type has an accessible field `count` of the parameter's type | `is not (SymbolKind.Property or SymbolKind.Field)`: fields and properties are both candidates, and `holder.count` is suggested | not executed | ContextVariableArgumentProviders.AsWrittenMissesField | ContextVariableArgumentProviders.IntendedSuggestsField |
