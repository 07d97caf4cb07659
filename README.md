# ProxyManager proxy generation, modelled in Dafny

ProxyManager generates PHP proxy classes (lazy-loading ghosts, value
holders, access-interceptor scope localizers and others) for user classes.
This project models three pieces of that pipeline and proves properties of
them:

- **Factory memoisation** (`AbstractBaseFactory`). A factory object keeps
  `checkedClasses`, from user class name to a proxy class name whose
  signature it has checked. On a miss it builds the proxy parameters
  (`className`, `factory`, `proxyManagerVersion`, in that order), asks the
  inflector for the proxy class name, generates the class only when it is
  not loaded yet (user class name, new class, generation, signature,
  emission, autoloading), checks the signature every time, and caches the
  name only after the check succeeded. `Factory` is a class whose
  `checkedClasses` field `GenerateProxy` updates. `Environment` is the
  process around it: the loaded classes and their signatures, the class
  files the generator strategy has written, and the log of collaborator
  calls. Both methods are proved equal to the pure `GenerateProxySpec` /
  `GenerateProxyClassSpec`. The properties are lemmas about those functions.
- **Class-name inflector** (`ClassNameInflector`, with `ParameterHash`). A
  proxy class name is `<proxy namespace>\__PM__\<user class>\Generated<hash>`.
  The inflector drops a leading `\`, recognises the `__PM__` marker segment
  and recovers the user class name. Names are strings, cut into namespace
  segments at `\`. The hash of the ordered parameter list is an injective
  stand-in: a canonical serialisation rendered as lower-case hexadecimal.
  The inflector operations are functions, so equal inputs give equal names
  by construction.
- **Magic-method generators.**
  - The `__unset` of lazy-loading ghosts (`LazyLoadingGhostMagicUnset`):
    the emitted text, the access decision it makes for a caller (public,
    protected and private tiers), and one call of the emitted method with
    its static accessor cache, keyed by `class#name`, as a class.
  - The `__set` of scope localizers (`ScopeLocalizerMagicSet`): the choice
    between the parent's `__set` and the scope accessor.
  - The `__clone` of value holders (`ValueHolderMagicClone`): its exact body.

The caller's class and object (which the generated code reads from the call
stack), the class hierarchy and the set of loaded classes are explicit
inputs. The inflector's own source and the generators' sources are not part
of this model; their behaviour is taken from their tests.

## Model

| member | source | states |
|---|---|---|
| `AbstractBaseFactory.Factory.constructor` | src/ProxyManager/Factory/AbstractBaseFactory.php:31-36 | a new factory has an empty cache of checked classes |
| `AbstractBaseFactory.Factory.GenerateProxy` | src/ProxyManager/Factory/AbstractBaseFactory.php:47-78 | result, new cache and new environment (loaded classes, written classes, call log) are exactly those of `GenerateProxySpec` on the old cache and environment |
| `AbstractBaseFactory.Factory.GenerateProxyClass` | src/ProxyManager/Factory/AbstractBaseFactory.php:88-106 | error and new environment are those of `GenerateProxyClassSpec`: the ordered collaborator calls, failure when the user class cannot be reflected |
| `AbstractBaseFactory.Environment.InflectProxyName` | src/ProxyManager/Factory/AbstractBaseFactory.php:58-61 | returns the inflector's proxy class name and logs the call |
| `AbstractBaseFactory.Environment.InflectUserName` | src/ProxyManager/Factory/AbstractBaseFactory.php:94 | returns the inflector's user class name and logs the call |
| `AbstractBaseFactory.Environment.NewClassGenerator` | src/ProxyManager/Factory/AbstractBaseFactory.php:95 | a new unsigned class named after the proxy |
| `AbstractBaseFactory.Environment.GenerateFrom` | src/ProxyManager/Factory/AbstractBaseFactory.php:97 | succeeds exactly when the user class is loaded; generation is logged only then |
| `AbstractBaseFactory.Environment.AddSignature` | src/ProxyManager/Factory/AbstractBaseFactory.php:99 | the class now carries the signature of the proxy parameters |
| `AbstractBaseFactory.Environment.EmitClass` | src/ProxyManager/Factory/AbstractBaseFactory.php:101 | the generator strategy writes the class with its signature |
| `AbstractBaseFactory.Environment.AutoloadClass` | src/ProxyManager/Factory/AbstractBaseFactory.php:103-105 | a written class that is not loaded becomes loaded with its signature; nothing else is loaded |
| `AbstractBaseFactory.Environment.CheckSignature` | src/ProxyManager/Factory/AbstractBaseFactory.php:72-75 | an unloaded proxy class fails reflection; a loaded one fails with a missing or invalid signature unless it is signed with exactly these parameters |
| `AbstractBaseFactory.ProxyParameters` | src/ProxyManager/Factory/AbstractBaseFactory.php:53-57 | the parameters are exactly the keys `className`, `factory`, `proxyManagerVersion`, in this order, with the class name, the factory class and the version |
| `AbstractBaseFactory.SignatureError` | src/ProxyManager/Factory/AbstractBaseFactory.php:72-75 | no error exactly when the class is signed with these parameters; a missing signature exactly when it is unsigned; an invalid one exactly when it is signed with other parameters |
| `AbstractBaseFactory.GenerateProxyClassSpec` | src/ProxyManager/Factory/AbstractBaseFactory.php:88-106 | fails with `ClassNotFound` of the user class exactly when the user class is not loaded, changing no class then; otherwise the proxy is written signed and loaded (a loaded one is left as it is); other loaded classes are unchanged and calls are only appended |
| `AbstractBaseFactory.GenerateProxySpec` | src/ProxyManager/Factory/AbstractBaseFactory.php:47-78 | a cached class returns its stored name and changes nothing; a success caches the returned name and, on a miss, it is the inflected name, loaded with the class's parameter signature; a failure caches nothing; cache entries, loaded classes and earlier calls are never changed |
| `AbstractBaseFactory.CacheHitChangesNothing` | src/ProxyManager/Factory/AbstractBaseFactory.php:49-51 | a cached class name returns the stored name, with no collaborator call and nothing changed |
| `AbstractBaseFactory.MissCachesInflectedName` | src/ProxyManager/Factory/AbstractBaseFactory.php:58-77 | a successful miss returns the inflector's name for the class and adds only that cache entry; a failed miss caches nothing |
| `AbstractBaseFactory.MissCallOrder` | src/ProxyManager/Factory/AbstractBaseFactory.php:58-105 | the call sequence of a miss: proxy name; generation steps in order only when the proxy is not loaded; then the signature check (none when the user class is missing) |
| `AbstractBaseFactory.GenerationLoadsProxy` | src/ProxyManager/Factory/AbstractBaseFactory.php:63-70 | a loaded proxy class is not regenerated; otherwise generation loads it signed with the proxy parameters |
| `AbstractBaseFactory.FreshProxyPassesCheck` | src/ProxyManager/Factory/AbstractBaseFactory.php:63-77 | a freshly generated proxy passes the signature check and is returned |
| `AbstractBaseFactory.StaleProxyRejected` | src/ProxyManager/Factory/AbstractBaseFactory.php:72-75 | an already loaded proxy without a signature, or signed with other parameters, is rejected and nothing is cached |
| `AbstractBaseFactory.LoadedClassesPersist` | src/ProxyManager/Factory/AbstractBaseFactory.php:63-70 | loaded classes stay loaded with the signature they had |
| `AbstractBaseFactory.GenerateProxyKeepsCacheSound` | src/ProxyManager/Factory/AbstractBaseFactory.php:72-77 | invariant: every cached name is the inflected name of its class, is loaded and carries that class's parameter signature |
| `AbstractBaseFactory.SecondCallIsCacheHit` | src/ProxyManager/Factory/AbstractBaseFactory.php:49-51 | after a success, asking again returns the same name and changes nothing |
| `AbstractBaseFactory.DistinctRequestsDistinctProxies` | src/ProxyManager/Factory/AbstractBaseFactory.php:53-61 | requests differing in class name, factory class or version get different proxy classes |
| `ParameterHash.SerializeInjective` | tests/ProxyManagerTest/Inflector/ClassNameInflectorTest.php:47-67 | different ordered parameter lists (a changed value, an added key, another key order) serialise differently |
| `ParameterHash.HashInjective` | tests/ProxyManagerTest/Inflector/ClassNameInflectorTest.php:47-67 | the hash determines the ordered parameter list |
| `ParameterHash.Hash` | tests/ProxyManagerTest/Inflector/ClassNameInflectorTest.php:113-125 | the hash is lower-case hexadecimal, so identifier characters only, even for NUL bytes in the parameters; it is a whole number of six-digit tokens and empty only for the empty list |
| `ClassNameInflector.UserClassNameIsFixed` | tests/ProxyManagerTest/Inflector/ClassNameInflectorTest.php:24-26 | a user class name is not a proxy name and is its own user class name |
| `ClassNameInflector.ProxyClassNameIsRecognised` | tests/ProxyManagerTest/Inflector/ClassNameInflectorTest.php:25 | every generated proxy name is recognised as a proxy name |
| `ClassNameInflector.UserClassNameRoundTrip` | tests/ProxyManagerTest/Inflector/ClassNameInflectorTest.php:29 | the user class name of the proxy name of a class is that class's user class name |
| `ClassNameInflector.GetUserClassName` | tests/ProxyManagerTest/Inflector/ClassNameInflectorTest.php:20-30 | a user class name (no leading `\`, no marker) is its own user class name; the user class name recovered from a proxy name contains no marker |
| `ClassNameInflector.StripLeadingSeparator` | tests/ProxyManagerTest/Inflector/ClassNameInflectorTest.php:69-77 | the result is the name itself, or the name less one leading `\`; it differs from the name exactly when the name starts with `\` |
| `ClassNameInflector.IsProxyClassName` | tests/ProxyManagerTest/Inflector/ClassNameInflectorTest.php:20-30 | a name is a proxy name if and only if some segment strictly inside it is the `__PM__` marker |
| `ClassNameInflector.GetProxyClassName` | tests/ProxyManagerTest/Inflector/ClassNameInflectorTest.php:20-30 | the proxy name starts with the namespace and `\__PM__\` and ends with `\Generated` and the parameter hash, around the user class name |
| `ClassNameInflector.ProxyOfProxyName` | tests/ProxyManagerTest/Inflector/ClassNameInflectorTest.php:27 | the proxy name of a proxy name is the proxy name of its user class: markers never nest |
| `ClassNameInflector.ProxyClassNameShape` | tests/ProxyManagerTest/Inflector/ClassNameInflectorTest.php:100-106 | the proxy name of a user class is `<namespace>\__PM__\<class>\Generated<hash>` |
| `ClassNameInflector.LeadingSeparatorIgnored` | tests/ProxyManagerTest/Inflector/ClassNameInflectorTest.php:69-77 | one leading `\` changes neither the user nor the proxy class name |
| `ClassNameInflector.DifferentParametersDifferentNames` | tests/ProxyManagerTest/Inflector/ClassNameInflectorTest.php:47-67 | different parameter lists give one class different proxy names |
| `ClassNameInflector.ProxyClassNameInjective` | tests/ProxyManagerTest/Inflector/ClassNameInflectorTest.php:32-67 | a proxy name determines both the user class and the parameters |
| `ClassNameInflector.ProxyClassNameIsQualified` | tests/ProxyManagerTest/Inflector/ClassNameInflectorTest.php:84-93 | every segment of a proxy name is a PHP identifier when the namespace and the class are qualified names |
| `ClassNameInflector.QualifiedNameCharacters` | tests/ProxyManagerTest/Inflector/ClassNameInflectorTest.php:88-92 | a qualified name holds only identifier characters and separators |
| `ClassNameInflector.TestUserClassNames` | tests/ProxyManagerTest/Inflector/ClassNameInflectorTest.php:20-30 | `Foo` and `Foo\Bar` are not proxy names and are their own user class names |
| `ClassNameInflector.TestProxyClassNames` | tests/ProxyManagerTest/Inflector/ClassNameInflectorTest.php:100-106 | in `ProxyNS`, `Foo\Bar` gets `ProxyNS\__PM__\Foo\Bar\Generated<hash>`, recognised and inverted |
| `LazyLoadingGhostMagicUnset.Decide` | tests/ProxyManagerTest/ProxyGenerator/LazyLoadingGhost/MethodGenerator/MagicUnsetTest.php:45-101 | the public tier is taken exactly for a public property; the protected tier exactly for a protected (not public) property and a compatible caller; the private tier exactly for a private (not public, not protected) property and a declaring or `ReflectionProperty` caller, in the scope of the caller's class when it declares the property, otherwise of the first declaring class |
| `LazyLoadingGhostMagicUnset.PublicIgnoresCaller` | tests/ProxyManagerTest/ProxyGenerator/LazyLoadingGhost/MethodGenerator/MagicUnsetTest.php:45-49 | a public property is unset directly, whoever the caller is |
| `LazyLoadingGhostMagicUnset.ProtectedNeedsCompatibleCaller` | tests/ProxyManagerTest/ProxyGenerator/LazyLoadingGhost/MethodGenerator/MagicUnsetTest.php:51-71 | a protected property is unset if and only if the caller object is an instance of the declaring class, or the caller class is it, a subclass of it, or `ReflectionProperty`; otherwise fall-through, never the private tier |
| `LazyLoadingGhostMagicUnset.PrivateUnsetInDeclaringScope` | tests/ProxyManagerTest/ProxyGenerator/LazyLoadingGhost/MethodGenerator/MagicUnsetTest.php:71-100 | a private property is unset if and only if the caller class declares it or is `ReflectionProperty`, always in a declaring class's scope (the caller's own, or the first for reflection) |
| `LazyLoadingGhostMagicUnset.UnknownNameFallsThrough` | tests/ProxyManagerTest/ProxyGenerator/LazyLoadingGhost/MethodGenerator/MagicUnsetTest.php:45-102 | a name in no property map falls through |
| `LazyLoadingGhostMagicUnset.CacheKeyInjective` | tests/ProxyManagerTest/ProxyGenerator/LazyLoadingGhost/MethodGenerator/MagicUnsetTest.php:80 | `class#name` keys of two accessors coincide only for the same class and name |
| `LazyLoadingGhostMagicUnset.CacheAfterKeepsEntries` | tests/ProxyManagerTest/ProxyGenerator/LazyLoadingGhost/MethodGenerator/MagicUnsetTest.php:77-97 | a call keeps the accessor cache coherent and never replaces a stored accessor |
| `LazyLoadingGhostMagicUnset.GhostUnset.constructor` | tests/ProxyManagerTest/ProxyGenerator/LazyLoadingGhost/MethodGenerator/MagicUnsetTest.php:77 | the static accessor cache starts empty |
| `LazyLoadingGhostMagicUnset.GhostUnset.FetchAccessor` | tests/ProxyManagerTest/ProxyGenerator/LazyLoadingGhost/MethodGenerator/MagicUnsetTest.php:80-85 | returns the accessor for this class and name; an existing entry is reused, a missing one inserted once |
| `LazyLoadingGhostMagicUnset.GhostUnset.Run` | tests/ProxyManagerTest/ProxyGenerator/LazyLoadingGhost/MethodGenerator/MagicUnsetTest.php:43-101 | effects are initialization (when pending) then the effect of `Decide`; the cache gains only the accessor a private unset used |
| `LazyLoadingGhostMagicUnset.InitializationFirst` | tests/ProxyManagerTest/ProxyGenerator/LazyLoadingGhost/MethodGenerator/MagicUnsetTest.php:43 | initialization with `__unset` and `['name' => $name]` comes first, exactly when pending |
| `LazyLoadingGhostMagicUnset.FallbackReachesParent` | tests/ProxyManagerTest/ProxyGenerator/LazyLoadingGhost/MethodGenerator/MagicUnsetTest.php:172 | a fall-through calls the parent's `__unset` exactly when the user class has one |
| `LazyLoadingGhostMagicUnset.MagicUnset` | tests/ProxyManagerTest/ProxyGenerator/LazyLoadingGhost/MethodGenerator/MagicUnsetTest.php:42-43 | the method is `__unset` with the one parameter `$name`; its body starts with the initialization line and ends with the fall-through, whatever the tiers are |
| `LazyLoadingGhostMagicUnset.MagicUnsetEndsWithParentCall` | tests/ProxyManagerTest/ProxyGenerator/LazyLoadingGhost/MethodGenerator/MagicUnsetTest.php:169-172 | when the user class has `__unset`, the body ends with `return parent::__unset($name);` |
| `LazyLoadingGhostMagicUnset.FooBazInitLine` | tests/ProxyManagerTest/ProxyGenerator/LazyLoadingGhost/MethodGenerator/MagicUnsetTest.php:43 | for the initializer `foo` and the method `baz` the initialization line is the test's line 43 |
| `LazyLoadingGhostMagicUnset.BarPublicBlock` | tests/ProxyManagerTest/ProxyGenerator/LazyLoadingGhost/MethodGenerator/MagicUnsetTest.php:45-49 | the public tier for the map `bar` is the test's text |
| `LazyLoadingGhostMagicUnset.BazProtectedLookup` | tests/ProxyManagerTest/ProxyGenerator/LazyLoadingGhost/MethodGenerator/MagicUnsetTest.php:51-56 | the protected tier for the map `baz`, up to the lookup of the expected type, is the test's text |
| `LazyLoadingGhostMagicUnset.TabPrivateScopeCheck` | tests/ProxyManagerTest/ProxyGenerator/LazyLoadingGhost/MethodGenerator/MagicUnsetTest.php:71-79 | the private tier for the map `tab`, up to the test of the caller's class, is the test's text |
| `LazyLoadingGhostMagicUnset.ClassAccessorCall` | tests/ProxyManagerTest/ProxyGenerator/LazyLoadingGhost/MethodGenerator/MagicUnsetTest.php:80-87 | the accessor call bound to `$class` is the test's text |
| `LazyLoadingGhostMagicUnset.TabReflectionScope` | tests/ProxyManagerTest/ProxyGenerator/LazyLoadingGhost/MethodGenerator/MagicUnsetTest.php:88-91 | the reflection case of the private tier for `tab`, up to its accessor call, is the test's text |
| `LazyLoadingGhostMagicUnset.TmpClassAccessorCall` | tests/ProxyManagerTest/ProxyGenerator/LazyLoadingGhost/MethodGenerator/MagicUnsetTest.php:92-99 | the accessor call bound to `$tmpClass` is the test's text |
| `LazyLoadingGhostMagicUnset.FallbackStartsNewLine` | tests/ProxyManagerTest/ProxyGenerator/LazyLoadingGhost/MethodGenerator/MagicUnsetTest.php:101-102 | the fall-through starts on a new line after the private tier's closing brace |
| `ScopeLocalizerMagicSet.MagicSet` | tests/ProxyManagerTest/ProxyGenerator/AccessInterceptorScopeLocalizer/MethodGenerator/MagicSetTest.php:42-43 | the method is `__set($name, $value)` whether or not the parent has `__set` |
| `ScopeLocalizerMagicSet.MagicSetBindsReturnValue` | tests/ProxyManagerTest/ProxyGenerator/AccessInterceptorScopeLocalizer/MethodGenerator/MagicSetTest.php:42-69 | inside the interceptor wrapper the body binds `$returnValue` from `parent::__set($name, $value)` when the parent has `__set`, from `$accessor()` otherwise |
| `ScopeLocalizerMagicSet.StatementRevealsParent` | tests/ProxyManagerTest/ProxyGenerator/AccessInterceptorScopeLocalizer/MethodGenerator/MagicSetTest.php:44-69 | the statement ends with the accessor call if and only if the parent has no `__set` |
| `ValueHolderMagicClone.MagicClone` | tests/ProxyManagerTest/ProxyGenerator/LazyLoadingValueHolder/MethodGenerator/MagicCloneTest.php:37-38 | the method is `__clone` with no parameters |
| `ValueHolderMagicClone.MagicCloneShape` | tests/ProxyManagerTest/ProxyGenerator/LazyLoadingValueHolder/MethodGenerator/MagicCloneTest.php:39-42 | the body is the guarded initializer call, an empty line, then the cloning of the value holder |
| `ValueHolderMagicClone.MagicCloneFooBar` | tests/ProxyManagerTest/ProxyGenerator/LazyLoadingValueHolder/MethodGenerator/MagicCloneTest.php:39-42 | for the initializer `foo` and the value holder `bar` the body is exactly the test's expected text |
| `ValueHolderMagicClone.MagicCloneInjective` | tests/ProxyManagerTest/ProxyGenerator/LazyLoadingValueHolder/MethodGenerator/MagicCloneTest.php:39-42 | the body determines the initializer and value-holder names it was built from |

## Left out

- `ParameterHash.Hash`: the hash is an injective, variable-length hexadecimal serialisation. A real digest has a fixed length and can collide. Collision resistance is assumed, not proved.
- Integer parameter keys (as in `[null]`) are modelled as string keys. PHP values other than `null` and strings are not modelled.
- `ClassNameInflector.StripLeadingSeparator`: removes one leading `\`, as documented for the inflector. Names with several leading separators are not modelled further.
- The proxy options passed through `generateProxy` to the generator and the generator strategy are not modelled. They do not affect the cache or the call order.
- The default configuration (a null configuration replaced by a new one) is not modelled. A factory is built from its proxy namespace, factory class and version.
- `class_exists` triggering other autoloaders, and `eval`, reflection and code emission as mechanisms, are not modelled. Loaded and written classes are maps from name to signature.
- The proxy generators' own output (the class body `generate` fills in) is not modelled. Only the signature added to the class is.
- `ScopeLocalizerMagicSet.MagicSet`: the interceptor wrapper and the public-scope simulation code come from generators whose sources are not part of this model. They are inputs, so only the choice of statement and its position are stated.
- `LazyLoadingGhostMagicUnset.MagicUnset`: the fall-through code when the user class has no `__unset` is the public-scope simulator's, an input here. The empty line before the fall-through (`FallbackText` starts with two newlines) is a choice of this model: the test at `tests/ProxyManagerTest/ProxyGenerator/LazyLoadingGhost/MethodGenerator/MagicUnsetTest.php:101-102` fixes only the closing brace, one newline and then any text.
- `LazyLoadingGhostMagicUnset.MagicUnset`: for the names `foo`, `baz`, `bar`, `baz`, `tab` the test's expected text is compared piece by piece: the initialization line (`FooBazInitLine`), the public tier (`BarPublicBlock`), the protected tier up to the lookup of the expected type (`BazProtectedLookup`) and the four parts of the private tier (`TabPrivateScopeCheck`, `ClassAccessorCall`, `TabReflectionScope`, `TmpClassAccessorCall`). The pieces are joined by the definitions of `ProtectedBlock`, `PrivateBlock`, `JoinTiers` and `UnsetBody`; no lemma states a whole tier or the whole body equal to one literal, because such an equality over the full text needs about 2 million resource units, more than any other proof here.
- `LazyLoadingGhostMagicUnset.ProtectedChecks`: the two caller checks that close the protected tier are a fixed text written from `tests/ProxyManagerTest/ProxyGenerator/LazyLoadingGhost/MethodGenerator/MagicUnsetTest.php:57-71` and are not checked against anything.
- `debug_backtrace`, `Closure::bind`, `is_subclass_of` and `instanceof` are inputs: the caller's class and object class, and a map from each class to its proper ancestors.
- Concurrency and PHP process state outside one factory are not modelled.
- The `OutOfBoundsException` that `generateProxy` documents (`src/ProxyManager/Factory/AbstractBaseFactory.php:45`), raised when the library version cannot be looked up, is not modelled: the version is a plain input of the configuration and its lookup always succeeds here.
- The null-object functional tests, the XML-RPC adapter and the version string are outside this model.
