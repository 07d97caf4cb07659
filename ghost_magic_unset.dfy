/** The `__unset` method generated for lazy-loading ghost objects.

    A ghost proxy extends the user class, so PHP's own visibility rules do
    not let it unset a protected or private property on behalf of an
    arbitrary caller. The generated method therefore emulates them. It first
    triggers initialization. A public property is unset directly. A
    protected property is unset only for a compatible caller. A private
    property is unset through a closure bound to a declaring class, and only
    for a caller that is that class. Any other name falls through to the
    parent's `__unset` or to the public-scope default.

    The model has three parts: the text the generator emits (`MagicUnset`),
    the decision that text makes for a given caller (`Decide`), and one call
    of the emitted method with its static accessor cache (`GhostUnset.Run`).
    The caller's class and object, which the emitted code reads from the call
    stack, and the class hierarchy are explicit inputs. */
module LazyLoadingGhostMagicUnset {
  import opened Wrappers
  import opened Strings
  import opened MethodGenerator

  /** The caller class under which reflection unsets a property. */
  const ReflectionPropertyClass: string := "ReflectionProperty"

  /** The property maps a ghost proxy class carries as static properties. */
  datatype PropertyMaps = PropertyMaps(
    publicProperties: set<string>,
    protectedProperties: map<string, string>,    // property name to declaring class
    privateProperties: map<string, seq<string>>) // property name to declaring classes, in order

  /** The calling frame: its class ("" when there is none) and the class of
      its object, if any. */
  datatype Caller = Caller(callerClass: string, callerObject: Option<string>)

  /** The proper ancestors (parent classes and interfaces) of each class. */
  type Hierarchy = map<string, set<string>>

  predicate IsSubclassOf(h: Hierarchy, c: string, t: string) {
    c in h && t in h[c]
  }

  predicate IsInstanceOf(h: Hierarchy, objectClass: string, t: string) {
    objectClass == t || IsSubclassOf(h, objectClass, t)
  }

  /** A PHP class name never contains `#`, the accessor-cache key separator. */
  predicate IsClassNameText(c: string) {
    '#' !in c
  }

  predicate DeclaringClassesAreNames(m: PropertyMaps) {
    forall n :: n in m.privateProperties ==>
      forall i :: 0 <= i < |m.privateProperties[n]| ==> IsClassNameText(m.privateProperties[n][i])
  }

  /** The first declaring class of a private property; `key()` of an empty
      map yields null, which concatenates as the empty string. */
  function FirstDeclaringClass(classes: seq<string>): string {
    if |classes| > 0 then classes[0] else ""
  }

  // ---------------------------------------------------------------------
  // The decision the emitted code makes

  datatype Decision = UnsetPublic | UnsetProtected | UnsetPrivate(scope: string) | Fallback

  /** A caller the protected tier accepts for a property declared in `t`. */
  predicate CompatibleWithProtected(h: Hierarchy, caller: Caller, t: string) {
    || (caller.callerObject.Some? && IsInstanceOf(h, caller.callerObject.value, t))
    || caller.callerClass == t
    || IsSubclassOf(h, caller.callerClass, t)
    || caller.callerClass == ReflectionPropertyClass
  }

  function Decide(m: PropertyMaps, h: Hierarchy, caller: Caller, name: string): (r: Decision)
    ensures r.UnsetPublic? <==> name in m.publicProperties
    ensures r.UnsetProtected? <==>
      && name !in m.publicProperties && name in m.protectedProperties
      && CompatibleWithProtected(h, caller, m.protectedProperties[name])
    ensures r.UnsetPrivate? <==>
      && name !in m.publicProperties && name !in m.protectedProperties && name in m.privateProperties
      && (caller.callerClass in m.privateProperties[name] || caller.callerClass == ReflectionPropertyClass)
    ensures r.UnsetPrivate? && |m.privateProperties[name]| > 0 ==> r.scope in m.privateProperties[name]
    ensures r.UnsetPrivate? ==>
      r.scope == if caller.callerClass in m.privateProperties[name] then caller.callerClass
                 else FirstDeclaringClass(m.privateProperties[name])
  {
    if name in m.publicProperties then
      UnsetPublic
    else if name in m.protectedProperties then
      var expectedType := m.protectedProperties[name];
      if caller.callerObject.Some? && IsInstanceOf(h, caller.callerObject.value, expectedType) then
        UnsetProtected
      else if caller.callerClass == expectedType
           || IsSubclassOf(h, caller.callerClass, expectedType)
           || caller.callerClass == ReflectionPropertyClass then
        UnsetProtected
      else
        Fallback
    else if name in m.privateProperties then
      if caller.callerClass in m.privateProperties[name] then
        UnsetPrivate(caller.callerClass)
      else if caller.callerClass == ReflectionPropertyClass then
        UnsetPrivate(FirstDeclaringClass(m.privateProperties[name]))
      else
        Fallback
    else
      Fallback
  }

  /** A public property is unset whoever calls. */
  lemma PublicIgnoresCaller(m: PropertyMaps, h: Hierarchy, c1: Caller, c2: Caller, name: string)
    requires name in m.publicProperties
    ensures Decide(m, h, c1, name) == Decide(m, h, c2, name) == UnsetPublic
  {
  }

  /** A protected property (that is not also public) is unset exactly when
      the caller is compatible with its declaring class; otherwise the call
      falls through, and the private tier is never consulted. */
  lemma ProtectedNeedsCompatibleCaller(m: PropertyMaps, h: Hierarchy, caller: Caller, name: string)
    requires name !in m.publicProperties && name in m.protectedProperties
    ensures var d := Decide(m, h, caller, name);
      && (d == UnsetProtected <==> CompatibleWithProtected(h, caller, m.protectedProperties[name]))
      && (d != UnsetProtected ==> d == Fallback)
      && !d.UnsetPrivate?
  {
  }

  /** A private property is unset only in the scope of one of its declaring
      classes: the caller's own class when that declares it, the first
      declaring class for a reflection caller, and for no other caller. */
  lemma PrivateUnsetInDeclaringScope(m: PropertyMaps, h: Hierarchy, caller: Caller, name: string)
    requires name !in m.publicProperties && name !in m.protectedProperties && name in m.privateProperties
    requires |m.privateProperties[name]| > 0
    ensures var d := Decide(m, h, caller, name);
      && (d.UnsetPrivate? <==> caller.callerClass in m.privateProperties[name] || caller.callerClass == ReflectionPropertyClass)
      && (d.UnsetPrivate? ==> d.scope in m.privateProperties[name])
      && (caller.callerClass in m.privateProperties[name] ==> d == UnsetPrivate(caller.callerClass))
      && ((caller.callerClass !in m.privateProperties[name] && caller.callerClass == ReflectionPropertyClass)
          ==> d == UnsetPrivate(m.privateProperties[name][0]))
      && (!d.UnsetPrivate? ==> d == Fallback)
  {
  }

  /** A name in none of the maps always falls through. */
  lemma UnknownNameFallsThrough(m: PropertyMaps, h: Hierarchy, caller: Caller, name: string)
    requires name !in m.publicProperties && name !in m.protectedProperties && name !in m.privateProperties
    ensures Decide(m, h, caller, name) == Fallback
  {
  }

  // ---------------------------------------------------------------------
  // One call of the emitted method

  /** What a call does, in order. */
  datatype Effect =
    | Initialize(operation: string, parameters: seq<(string, string)>)
    | UnsetInProxyScope(name: string)
    | UnsetInScope(scope: string, name: string)   // through an accessor closure
    | ParentUnset(name: string)
    | DefaultUnset(name: string)                  // the public-scope default

  /** A closure that unsets property `name` with `scope` as its class scope. */
  datatype Accessor = Accessor(scope: string, name: string)

  function CacheKey(scope: string, name: string): string {
    scope + "#" + name
  }

  /** Every cache entry is stored under the key of its own scope and name. */
  ghost predicate CacheCoherent(cache: map<string, Accessor>) {
    forall k :: k in cache ==> IsClassNameText(cache[k].scope) && k == CacheKey(cache[k].scope, cache[k].name)
  }

  /** Two accessors never share a cache key. */
  lemma CacheKeyInjective(s1: string, n1: string, s2: string, n2: string)
    requires IsClassNameText(s1) && IsClassNameText(s2)
    requires CacheKey(s1, n1) == CacheKey(s2, n2)
    ensures s1 == s2 && n1 == n2
  {
    HeadBeforeDelimiter(s1, n1, s2, n2, '#');
  }

  function InitializationEffects(initializerPending: bool, name: string): seq<Effect> {
    if initializerPending then [Initialize("__unset", [("name", name)])] else []
  }

  function EffectOf(d: Decision, name: string, parentHasUnset: bool): Effect {
    match d
    case UnsetPublic => UnsetInProxyScope(name)
    case UnsetProtected => UnsetInProxyScope(name)
    case UnsetPrivate(scope) => UnsetInScope(scope, name)
    case Fallback => if parentHasUnset then ParentUnset(name) else DefaultUnset(name)
  }

  function CacheAfter(cache: map<string, Accessor>, d: Decision, name: string): map<string, Accessor> {
    if d.UnsetPrivate? then cache[CacheKey(d.scope, name) := Accessor(d.scope, name)] else cache
  }

  /** The accessor cache stays coherent, and an entry once stored is never
      replaced by a different accessor. */
  lemma CacheAfterKeepsEntries(cache: map<string, Accessor>, d: Decision, name: string)
    requires CacheCoherent(cache)
    requires d.UnsetPrivate? ==> IsClassNameText(d.scope)
    ensures CacheCoherent(CacheAfter(cache, d, name))
    ensures forall k :: k in cache ==> k in CacheAfter(cache, d, name) && CacheAfter(cache, d, name)[k] == cache[k]
  {
    if d.UnsetPrivate? {
      var key := CacheKey(d.scope, name);
      if key in cache {
        CacheKeyInjective(cache[key].scope, cache[key].name, d.scope, name);
      }
    }
  }

  /** The generated `__unset` of one proxy class, with its static accessor cache. */
  class GhostUnset {
    const maps: PropertyMaps
    const hierarchy: Hierarchy
    const parentHasUnset: bool
    var accessorCache: map<string, Accessor>

    constructor(maps: PropertyMaps, hierarchy: Hierarchy, parentHasUnset: bool)
      ensures this.maps == maps && this.hierarchy == hierarchy && this.parentHasUnset == parentHasUnset
      ensures accessorCache == map[]
    {
      this.maps, this.hierarchy, this.parentHasUnset := maps, hierarchy, parentHasUnset;
      accessorCache := map[];
    }

    /** Reuses the cached accessor for `scope#name`, or builds and stores one. */
    method FetchAccessor(scope: string, name: string) returns (a: Accessor)
      requires CacheCoherent(accessorCache) && IsClassNameText(scope)
      modifies this`accessorCache
      ensures a == Accessor(scope, name)
      ensures accessorCache == old(accessorCache)[CacheKey(scope, name) := a]
      ensures CacheKey(scope, name) in old(accessorCache) ==> accessorCache == old(accessorCache)
    {
      var key := CacheKey(scope, name);
      if key in accessorCache {
        a := accessorCache[key];
        CacheKeyInjective(a.scope, a.name, scope, name);
      } else {
        a := Accessor(scope, name);
        accessorCache := accessorCache[key := a];
      }
    }

    /** One call `__unset($name)` from `caller`. */
    method Run(initializerPending: bool, caller: Caller, name: string) returns (effects: seq<Effect>)
      requires CacheCoherent(accessorCache)
      requires IsClassNameText(caller.callerClass) && DeclaringClassesAreNames(maps)
      modifies this`accessorCache
      ensures var d := Decide(maps, hierarchy, caller, name);
        && effects == InitializationEffects(initializerPending, name) + [EffectOf(d, name, parentHasUnset)]
        && accessorCache == CacheAfter(old(accessorCache), d, name)
    {
      effects := InitializationEffects(initializerPending, name);
      if name in maps.publicProperties {
        return effects + [UnsetInProxyScope(name)];
      }
      if name in maps.protectedProperties {
        var expectedType := maps.protectedProperties[name];
        if caller.callerObject.Some? && IsInstanceOf(hierarchy, caller.callerObject.value, expectedType) {
          return effects + [UnsetInProxyScope(name)];
        }
        var callerClass := caller.callerClass;
        if callerClass == expectedType || IsSubclassOf(hierarchy, callerClass, expectedType) || callerClass == ReflectionPropertyClass {
          return effects + [UnsetInProxyScope(name)];
        }
      } else if name in maps.privateProperties {
        var callerClass := caller.callerClass;
        if callerClass in maps.privateProperties[name] {
          var accessor := FetchAccessor(callerClass, name);
          return effects + [UnsetInScope(accessor.scope, accessor.name)];
        }
        if callerClass == ReflectionPropertyClass {
          var tmpClass := FirstDeclaringClass(maps.privateProperties[name]);
          var accessor := FetchAccessor(tmpClass, name);
          return effects + [UnsetInScope(accessor.scope, accessor.name)];
        }
      }
      effects := effects + [if parentHasUnset then ParentUnset(name) else DefaultUnset(name)];
    }
  }

  /** Initialization comes first, with operation `__unset` and the property
      name as its only parameter, and happens exactly when it is pending. */
  lemma InitializationFirst(initializerPending: bool, d: Decision, name: string, parentHasUnset: bool)
    ensures var effects := InitializationEffects(initializerPending, name) + [EffectOf(d, name, parentHasUnset)];
      && (initializerPending <==> |effects| == 2)
      && (initializerPending ==> effects[0] == Initialize("__unset", [("name", name)]))
      && effects[|effects| - 1].name == name
  {
  }

  /** A call that falls through reaches the parent's `__unset` exactly when
      the user class defines one. */
  lemma FallbackReachesParent(d: Decision, name: string, parentHasUnset: bool)
    requires d == Fallback
    ensures EffectOf(d, name, parentHasUnset).ParentUnset? <==> parentHasUnset
    ensures !EffectOf(d, name, parentHasUnset).ParentUnset? <==> EffectOf(d, name, parentHasUnset).DefaultUnset?
  {
  }

  // ---------------------------------------------------------------------
  // The emitted text

  /** The initialization condition: the initializer is set and the
      initialization method is called. */
  function InitCondition(initializer: string, initMethod: string): string {
    "$this->" + initializer + " && $this->" + initMethod
  }

  function InitLine(initializer: string, initMethod: string): string {
    InitCondition(initializer, initMethod) + "('__unset', array('name' => $name));"
  }

  /** The test of one property map, opening its block. */
  function IssetOpen(propertyMap: string): string {
    "(isset(self::$" + propertyMap + "[$name])) {\n"
  }

  function PublicBlock(publicMap: string): string {
    "if " + IssetOpen(publicMap)
    + "    unset($this->$name);\n"
    + "\n"
    + "    return;\n"
    + "}"
  }

  function ExpectedTypeLine(protectedMap: string): string {
    "    $expectedType = self::$" + protectedMap + "[$name];\n"
  }

  /** The protected tier up to the lookup of the declaring class. */
  function ProtectedLookup(protectedMap: string): string {
    "if " + IssetOpen(protectedMap)
    + "    // check protected property access via compatible class\n"
    + "    $callers      = debug_backtrace(\\DEBUG_BACKTRACE_PROVIDE_OBJECT, 2);\n"
    + "    $caller       = isset($callers[1]) ? $callers[1] : [];\n"
    + "    $object       = isset($caller['object']) ? $caller['object'] : '';\n"
    + ExpectedTypeLine(protectedMap)
  }

  /** The two caller checks of the protected tier. */
  function ProtectedChecks(): string {
    "\n"
    + "    if ($object instanceof $expectedType) {\n"
    + "        unset($this->$name);\n"
    + "\n"
    + "        return;\n"
    + "    }\n"
    + "\n"
    + "    $class = isset($caller['class']) ? $caller['class'] : '';\n"
    + "\n"
    + "    if ($class === $expectedType || is_subclass_of($class, $expectedType) || $class === 'ReflectionProperty') {\n"
    + "        unset($this->$name);\n"
    + "\n"
    + "        return;\n"
    + "    }\n"
    + "}"
  }

  function ProtectedBlock(protectedMap: string): string {
    ProtectedLookup(protectedMap) + ProtectedChecks()
  }

  function CacheKeyLine(scopeVariable: string): string {
    "        $cacheKey = " + scopeVariable + " . '#' . $name;\n"
  }

  function BindScopeLine(scopeVariable: string): string {
    "            }, null, " + scopeVariable + ");\n"
  }

  /** Fetching (or creating and caching) the accessor bound to the class held
      in `scopeVariable`, and calling it on the proxy. */
  function AccessorCall(scopeVariable: string): string {
    CacheKeyLine(scopeVariable)
    + "        $accessor = isset($accessorCache[$cacheKey])\n"
    + "            ? $accessorCache[$cacheKey]\n"
    + "            : $accessorCache[$cacheKey] = \\Closure::bind(function ($instance) use ($name) {\n"
    + "                unset($instance->$name);\n"
    + BindScopeLine(scopeVariable)
    + "\n"
    + "        return $accessor($this);\n"
  }

  function DeclaringClassCheck(privateMap: string): string {
    "    if (isset(self::$" + privateMap + "[$name][$class])) {\n"
  }

  function FirstDeclaringClassLine(privateMap: string): string {
    "        $tmpClass = key(self::$" + privateMap + "[$name]);\n"
  }

  /** The private tier up to the test that the caller declares the property. */
  function PrivateScopeCheck(privateMap: string): string {
    IssetOpen(privateMap)
    + "    // check private property access via same class\n"
    + "    $callers = debug_backtrace(\\DEBUG_BACKTRACE_PROVIDE_OBJECT, 2);\n"
    + "    $caller  = isset($callers[1]) ? $callers[1] : [];\n"
    + "    $class   = isset($caller['class']) ? $caller['class'] : '';\n"
    + "\n"
    + "    static $accessorCache = [];\n"
    + "\n"
    + DeclaringClassCheck(privateMap)
  }

  /** The reflection case of the private tier, up to its accessor call. */
  function ReflectionScope(privateMap: string): string {
    "    }\n"
    + "\n"
    + "    if ('ReflectionProperty' === $class) {\n"
    + FirstDeclaringClassLine(privateMap)
  }

  function PrivateBlock(privateMap: string): string {
    PrivateScopeCheck(privateMap)
    + AccessorCall("$class")
    + ReflectionScope(privateMap)
    + AccessorCall("$tmpClass")
    + "    }\n"
    + "}"
  }

  const ParentUnsetCall: string := "return parent::__unset($name);"

  /** What follows the three tiers: the parent call when the user class
      defines `__unset`, the public-scope default code otherwise. */
  function FallbackText(parentHasUnset: bool, publicScopeDefault: string): string {
    "\n\n" + (if parentHasUnset then ParentUnsetCall else publicScopeDefault)
  }

  /** The three tiers after the initialization line: the public block, then
      the protected block chained by `elseif` to the private one. */
  function JoinTiers(publicBlock: string, protectedBlock: string, privateBlock: string): string {
    "\n\n" + publicBlock + "\n\n" + protectedBlock + " elseif " + privateBlock
  }

  function TiersAfterInit(publicMap: string, protectedMap: string, privateMap: string): string {
    JoinTiers(PublicBlock(publicMap), ProtectedBlock(protectedMap), PrivateBlock(privateMap))
  }

  /** The body: initialization, the three tiers, then the fall-through. */
  function UnsetBody(initializer: string, initMethod: string, publicMap: string, protectedMap: string,
                     privateMap: string, parentHasUnset: bool, publicScopeDefault: string): string {
    InitLine(initializer, initMethod) + TiersAfterInit(publicMap, protectedMap, privateMap)
    + FallbackText(parentHasUnset, publicScopeDefault)
  }

  /** `MagicUnset`: the method generated from the initializer property, the
      initialization method and the three property maps; it always has the
      name `__unset` and the single parameter `$name`. */
  function MagicUnset(initializer: string, initMethod: string, publicMap: string, protectedMap: string,
                      privateMap: string, parentHasUnset: bool, publicScopeDefault: string): (r: MethodDecl)
    ensures r == MethodDecl("__unset", ["name"], r.body)
    ensures StartsWith(r.body, InitLine(initializer, initMethod))
    ensures EndsWith(r.body, FallbackText(parentHasUnset, publicScopeDefault))
  {
    ThreePartShape(InitLine(initializer, initMethod), TiersAfterInit(publicMap, protectedMap, privateMap),
                   FallbackText(parentHasUnset, publicScopeDefault));
    MethodDecl("__unset", ["name"],
               UnsetBody(initializer, initMethod, publicMap, protectedMap, privateMap, parentHasUnset, publicScopeDefault))
  }

  lemma ParentFallbackText(publicScopeDefault: string)
    ensures EndsWith(FallbackText(true, publicScopeDefault), ParentUnsetCall)
  {
    ConcatEndsWith("\n\n", ParentUnsetCall);
  }

  /** When the user class defines `__unset`, the body ends with the call to
      the parent's. */
  lemma MagicUnsetEndsWithParentCall(initializer: string, initMethod: string, publicMap: string, protectedMap: string,
                                     privateMap: string, parentHasUnset: bool, publicScopeDefault: string)
    ensures parentHasUnset ==>
      EndsWith(MagicUnset(initializer, initMethod, publicMap, protectedMap, privateMap, parentHasUnset, publicScopeDefault).body,
               ParentUnsetCall)
  {
    if parentHasUnset {
      ParentFallbackText(publicScopeDefault);
      var body := MagicUnset(initializer, initMethod, publicMap, protectedMap, privateMap, parentHasUnset, publicScopeDefault).body;
      EndsWithTransitive(body, FallbackText(parentHasUnset, publicScopeDefault), ParentUnsetCall);
    }
  }

  // ---------------------------------------------------------------------
  // The body for the initializer `foo`, the initialization method `baz`
  // and the property maps `bar` (public), `baz` (protected), `tab` (private).
  // `UnsetBody` joins the initialization line and the three tiers with
  // `JoinTiers`; each of these pieces except the fixed caller checks
  // `ProtectedChecks` is compared with its expected text below, one piece
  // per lemma.

  /** The expected public tier for the map `bar`, line by line. */
  function ExpectedPublicBlock(): string {
    "if " + "(isset(self::$bar[$name])) {\n"
    + "    unset($this->$name);\n"
    + "\n"
    + "    return;\n"
    + "}"
  }

  /** The expected protected tier for the map `baz`, line by line, up to
      the lookup of the declaring class. */
  function ExpectedProtectedLookup(): string {
    "if " + "(isset(self::$baz[$name])) {\n"
    + "    // check protected property access via compatible class\n"
    + "    $callers      = debug_backtrace(\\DEBUG_BACKTRACE_PROVIDE_OBJECT, 2);\n"
    + "    $caller       = isset($callers[1]) ? $callers[1] : [];\n"
    + "    $object       = isset($caller['object']) ? $caller['object'] : '';\n"
    + "    $expectedType = self::$baz[$name];\n"
  }

  /** The expected accessor call for the class held in `$class`. */
  function ExpectedClassAccessorCall(): string {
    "        $cacheKey = $class . '#' . $name;\n"
    + "        $accessor = isset($accessorCache[$cacheKey])\n"
    + "            ? $accessorCache[$cacheKey]\n"
    + "            : $accessorCache[$cacheKey] = \\Closure::bind(function ($instance) use ($name) {\n"
    + "                unset($instance->$name);\n"
    + "            }, null, $class);\n"
    + "\n"
    + "        return $accessor($this);\n"
  }

  /** The expected accessor call for the class held in `$tmpClass`. */
  function ExpectedTmpClassAccessorCall(): string {
    "        $cacheKey = $tmpClass . '#' . $name;\n"
    + "        $accessor = isset($accessorCache[$cacheKey])\n"
    + "            ? $accessorCache[$cacheKey]\n"
    + "            : $accessorCache[$cacheKey] = \\Closure::bind(function ($instance) use ($name) {\n"
    + "                unset($instance->$name);\n"
    + "            }, null, $tmpClass);\n"
    + "\n"
    + "        return $accessor($this);\n"
  }

  /** The expected private tier for the map `tab`, line by line: the test of
      the caller's class, the accessor call for it, the reflection case and
      the accessor call for the first declaring class, then the closing
      braces. */
  function ExpectedPrivateScopeCheck(): string {
    "(isset(self::$tab[$name])) {\n"
    + "    // check private property access via same class\n"
    + "    $callers = debug_backtrace(\\DEBUG_BACKTRACE_PROVIDE_OBJECT, 2);\n"
    + "    $caller  = isset($callers[1]) ? $callers[1] : [];\n"
    + "    $class   = isset($caller['class']) ? $caller['class'] : '';\n"
    + "\n"
    + "    static $accessorCache = [];\n"
    + "\n"
    + "    if (isset(self::$tab[$name][$class])) {\n"
  }

  function ExpectedReflectionScope(): string {
    "    }\n"
    + "\n"
    + "    if ('ReflectionProperty' === $class) {\n"
    + "        $tmpClass = key(self::$tab[$name]);\n"
  }

  /** The expected initialization line. */
  function ExpectedInitLine(): string {
    "$this->foo && $this->baz" + "('__unset', array('name' => $name));"
  }

  lemma FooBazInitCondition()
    ensures InitCondition("foo", "baz") == "$this->foo && $this->baz"
  {
  }

  lemma BarIssetOpen()
    ensures IssetOpen("bar") == "(isset(self::$bar[$name])) {\n"
  {
  }

  lemma BazIssetOpen()
    ensures IssetOpen("baz") == "(isset(self::$baz[$name])) {\n"
  {
  }

  lemma TabIssetOpen()
    ensures IssetOpen("tab") == "(isset(self::$tab[$name])) {\n"
  {
  }

  lemma BazExpectedTypeLine()
    ensures ExpectedTypeLine("baz") == "    $expectedType = self::$baz[$name];\n"
  {
  }

  lemma TabDeclaringClassCheck()
    ensures DeclaringClassCheck("tab") == "    if (isset(self::$tab[$name][$class])) {\n"
  {
  }

  lemma TabFirstDeclaringClassLine()
    ensures FirstDeclaringClassLine("tab") == "        $tmpClass = key(self::$tab[$name]);\n"
  {
  }

  lemma ClassCacheKeyLine()
    ensures CacheKeyLine("$class") == "        $cacheKey = $class . '#' . $name;\n"
  {
  }

  lemma ClassBindScopeLine()
    ensures BindScopeLine("$class") == "            }, null, $class);\n"
  {
  }

  lemma TmpClassCacheKeyLine()
    ensures CacheKeyLine("$tmpClass") == "        $cacheKey = $tmpClass . '#' . $name;\n"
  {
  }

  lemma TmpClassBindScopeLine()
    ensures BindScopeLine("$tmpClass") == "            }, null, $tmpClass);\n"
  {
  }

  lemma ClassAccessorCall()
    ensures AccessorCall("$class") == ExpectedClassAccessorCall()
  {
    ClassCacheKeyLine();
    ClassBindScopeLine();
  }

  lemma TmpClassAccessorCall()
    ensures AccessorCall("$tmpClass") == ExpectedTmpClassAccessorCall()
  {
    TmpClassCacheKeyLine();
    TmpClassBindScopeLine();
  }

  lemma BarPublicBlock()
    ensures PublicBlock("bar") == ExpectedPublicBlock()
  {
    BarIssetOpen();
  }

  lemma BazProtectedLookup()
    ensures ProtectedLookup("baz") == ExpectedProtectedLookup()
  {
    BazIssetOpen();
    BazExpectedTypeLine();
  }

  lemma TabPrivateScopeCheck()
    ensures PrivateScopeCheck("tab") == ExpectedPrivateScopeCheck()
  {
    TabIssetOpen();
    TabDeclaringClassCheck();
  }

  lemma TabReflectionScope()
    ensures ReflectionScope("tab") == ExpectedReflectionScope()
  {
    TabFirstDeclaringClassLine();
  }

  lemma FooBazInitLine()
    ensures InitLine("foo", "baz") == ExpectedInitLine()
  {
    FooBazInitCondition();
  }

  /** The fall-through starts on a new line after the private tier's closing
      brace. */
  lemma FallbackStartsNewLine(parentHasUnset: bool, publicScopeDefault: string)
    ensures |FallbackText(parentHasUnset, publicScopeDefault)| > 0
    ensures FallbackText(parentHasUnset, publicScopeDefault)[0] == '\n'
  {
  }
}
