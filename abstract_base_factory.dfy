/** The common logic of all proxy factories: memoised proxy-class generation.

    A factory keeps `checkedClasses`, from user class name to a proxy class
    name whose signature it has checked. On a miss it builds the proxy
    parameters, asks the inflector for the proxy name, generates the proxy
    class only when that name is not loaded yet, always checks the
    signature, and caches the name only after the check succeeded.

    The process around the factory is an `Environment`: the loaded classes
    with the signature each carries, the class files the generator strategy
    has written, and the sequence of calls the factory made to its
    collaborators (inflector, generator, signature generator, generator
    strategy, autoloader, signature checker). */
module AbstractBaseFactory {
  import opened Wrappers
  import opened ParameterHash
  import Inflector = ClassNameInflector

  /** The signature a class carries: none, or the one computed from a parameter list. */
  datatype Signature = Unsigned | Signed(parameters: Params)

  datatype Error =
    | ClassNotFound(className: string)        // the class cannot be reflected
    | MissingSignature(proxyClassName: string)
    | InvalidSignature(proxyClassName: string)

  datatype Result = Success(proxyClassName: string) | Failure(error: Error)

  /** The calls the factory makes to its collaborators, in the order made. */
  datatype Call =
    | ProxyName(className: string, parameters: Params)   // inflector getProxyClassName
    | UserName(className: string)                        // inflector getUserClassName
    | NewClass(proxyClassName: string)                   // new ClassGenerator
    | Generate(userClassName: string, proxyClassName: string)
    | Sign(proxyClassName: string, parameters: Params)   // addSignature
    | Emit(proxyClassName: string)                       // generator strategy
    | Autoload(proxyClassName: string)
    | Check(proxyClassName: string, parameters: Params)  // checkSignature

  /** A class under construction: its name and the signature added to it. */
  datatype ClassDescription = ClassDescription(name: string, signature: Signature)

  /** A factory's configuration: the inflector's proxy namespace, the concrete
      factory class and the library version. */
  datatype Config = Config(proxyNamespace: string, factoryClass: string, version: string)

  datatype World = World(classes: map<string, Signature>, emitted: map<string, Signature>, calls: seq<Call>)

  datatype Outcome = Outcome(result: Result, checked: map<string, string>, world: World)

  /** The proxy parameters of one request, in this order: the class name, the
      concrete factory class and the library version. */
  function ProxyParameters(className: string, factoryClass: string, version: string): (r: Params)
    ensures |r| == 3
    ensures r[0].0 == "className" && r[1].0 == "factory" && r[2].0 == "proxyManagerVersion"
    ensures r[0].1 == Str(className) && r[1].1 == Str(factoryClass) && r[2].1 == Str(version)
  {
    [("className", Str(className)), ("factory", Str(factoryClass)), ("proxyManagerVersion", Str(version))]
  }

  function ParametersOf(cfg: Config, className: string): Params {
    ProxyParameters(className, cfg.factoryClass, cfg.version)
  }

  function ProxyClassNameOf(cfg: Config, className: string): string {
    Inflector.GetProxyClassName(cfg.proxyNamespace, className, ParametersOf(cfg, className))
  }

  /** The signature checker's verdict on a loaded class. */
  function SignatureError(s: Signature, proxy: string, p: Params): (r: Option<Error>)
    ensures r.None? <==> s == Signed(p)
    ensures r == Some(MissingSignature(proxy)) <==> s.Unsigned?
    ensures r == Some(InvalidSignature(proxy)) <==> s.Signed? && s.parameters != p
  {
    match s
    case Unsigned => Some(MissingSignature(proxy))
    case Signed(q) => if q == p then None else Some(InvalidSignature(proxy))
  }

  /** `generateProxyClass`: the user class name, a new class, generation,
      signature, emission and autoloading, in this order. Fails when the user
      class cannot be reflected. */
  function GenerateProxyClassSpec(w: World, proxy: string, className: string, p: Params): (r: (Option<Error>, World))
    ensures r.0.None? <==> Inflector.GetUserClassName(className) in w.classes
    ensures r.0.Some? ==> r.0.value == ClassNotFound(Inflector.GetUserClassName(className))
    ensures r.0.Some? ==> r.1.classes == w.classes && r.1.emitted == w.emitted
    ensures r.0.None? ==> proxy in r.1.classes && r.1.emitted == w.emitted[proxy := Signed(p)]
    ensures r.0.None? && proxy !in w.classes ==> r.1.classes == w.classes[proxy := Signed(p)]
    ensures proxy in w.classes ==> r.1.classes == w.classes
    ensures |r.1.calls| > |w.calls| && r.1.calls[..|w.calls|] == w.calls
  {
    var user := Inflector.GetUserClassName(className);
    var calls := w.calls + [UserName(className), NewClass(proxy)];
    if user !in w.classes then
      (Some(ClassNotFound(user)), w.(calls := calls))
    else
      var emitted := w.emitted[proxy := Signed(p)];
      var classes := if proxy !in w.classes then w.classes[proxy := emitted[proxy]] else w.classes;
      (None, World(classes, emitted, calls + [Generate(user, proxy), Sign(proxy, p), Emit(proxy), Autoload(proxy)]))
  }

  /** `generateProxy` on a cache `checked` and a world `w`. */
  function GenerateProxySpec(cfg: Config, checked: map<string, string>, w: World, className: string): (o: Outcome)
    ensures className in checked ==> o == Outcome(Success(checked[className]), checked, w)
    ensures o.result.Success? ==> className in o.checked && o.checked[className] == o.result.proxyClassName
    ensures o.result.Success? && className !in checked ==>
      && o.result.proxyClassName == ProxyClassNameOf(cfg, className)
      && o.result.proxyClassName in o.world.classes
      && o.world.classes[o.result.proxyClassName] == Signed(ParametersOf(cfg, className))
    ensures o.result.Failure? ==> o.checked == checked
    ensures forall c :: c in checked ==> c in o.checked && o.checked[c] == checked[c]
    ensures forall c :: c in w.classes ==> c in o.world.classes && o.world.classes[c] == w.classes[c]
    ensures |o.world.calls| >= |w.calls| && o.world.calls[..|w.calls|] == w.calls
  {
    if className in checked then
      Outcome(Success(checked[className]), checked, w)
    else
      var p := ParametersOf(cfg, className);
      var proxy := Inflector.GetProxyClassName(cfg.proxyNamespace, className, p);
      var w1 := w.(calls := w.calls + [ProxyName(className, p)]);
      var (err, w2) := if proxy in w1.classes then (None, w1) else GenerateProxyClassSpec(w1, proxy, className, p);
      if err.Some? then
        Outcome(Failure(err.value), checked, w2)
      else if proxy !in w2.classes then
        Outcome(Failure(ClassNotFound(proxy)), checked, w2)
      else
        var w3 := w2.(calls := w2.calls + [Check(proxy, p)]);
        match SignatureError(w2.classes[proxy], proxy, p)
        case Some(e) => Outcome(Failure(e), checked, w3)
        case None => Outcome(Success(proxy), checked[className := proxy], w3)
  }

  /** Every cached proxy name is the inflected name of its class, is loaded,
      and carries the signature of that class's proxy parameters. */
  ghost predicate CacheSound(cfg: Config, checked: map<string, string>, classes: map<string, Signature>) {
    forall c :: c in checked ==>
      && checked[c] == ProxyClassNameOf(cfg, c)
      && checked[c] in classes
      && classes[checked[c]] == Signed(ParametersOf(cfg, c))
  }

  // ---------------------------------------------------------------------
  // The factory and the world it acts on

  /** The process around a factory: loaded classes, written class files and
      the collaborator calls made so far. */
  class Environment {
    var classes: map<string, Signature>
    var emitted: map<string, Signature>
    var calls: seq<Call>

    function State(): World
      reads this
    {
      World(classes, emitted, calls)
    }

    constructor(loaded: map<string, Signature>)
      ensures State() == World(loaded, map[], [])
    {
      classes, emitted, calls := loaded, map[], [];
    }

    method InflectProxyName(ns: string, className: string, p: Params) returns (proxy: string)
      modifies this`calls
      ensures proxy == Inflector.GetProxyClassName(ns, className, p)
      ensures calls == old(calls) + [ProxyName(className, p)]
    {
      proxy := Inflector.GetProxyClassName(ns, className, p);
      calls := calls + [ProxyName(className, p)];
    }

    method InflectUserName(className: string) returns (user: string)
      modifies this`calls
      ensures user == Inflector.GetUserClassName(className)
      ensures calls == old(calls) + [UserName(className)]
    {
      user := Inflector.GetUserClassName(className);
      calls := calls + [UserName(className)];
    }

    method NewClassGenerator(proxy: string) returns (d: ClassDescription)
      modifies this`calls
      ensures d == ClassDescription(proxy, Unsigned)
      ensures calls == old(calls) + [NewClass(proxy)]
    {
      d := ClassDescription(proxy, Unsigned);
      calls := calls + [NewClass(proxy)];
    }

    /** Reflects the user class and lets the proxy generator fill `d`; fails
        when the user class is not loaded. */
    method GenerateFrom(user: string, d: ClassDescription) returns (found: bool)
      modifies this`calls
      ensures found == (user in classes)
      ensures calls == if found then old(calls) + [Generate(user, d.name)] else old(calls)
    {
      found := user in classes;
      if found {
        calls := calls + [Generate(user, d.name)];
      }
    }

    method AddSignature(d: ClassDescription, p: Params) returns (signed: ClassDescription)
      modifies this`calls
      ensures signed == d.(signature := Signed(p))
      ensures calls == old(calls) + [Sign(d.name, p)]
    {
      signed := d.(signature := Signed(p));
      calls := calls + [Sign(d.name, p)];
    }

    /** The generator strategy writes the class out. */
    method EmitClass(d: ClassDescription)
      modifies this`emitted, this`calls
      ensures emitted == old(emitted)[d.name := d.signature]
      ensures calls == old(calls) + [Emit(d.name)]
    {
      emitted := emitted[d.name := d.signature];
      calls := calls + [Emit(d.name)];
    }

    /** The autoloader loads a written class that is not loaded yet. */
    method AutoloadClass(name: string)
      modifies this`classes, this`calls
      ensures classes == if name in emitted && name !in old(classes) then old(classes)[name := emitted[name]] else old(classes)
      ensures calls == old(calls) + [Autoload(name)]
    {
      if name in emitted && name !in classes {
        classes := classes[name := emitted[name]];
      }
      calls := calls + [Autoload(name)];
    }

    /** Reflects the proxy class and checks its signature against `p`. */
    method CheckSignature(proxy: string, p: Params) returns (err: Option<Error>)
      modifies this`calls
      ensures proxy !in classes ==> err == Some(ClassNotFound(proxy)) && calls == old(calls)
      ensures proxy in classes ==> err == SignatureError(classes[proxy], proxy, p) && calls == old(calls) + [Check(proxy, p)]
    {
      if proxy !in classes {
        err := Some(ClassNotFound(proxy));
      } else {
        calls := calls + [Check(proxy, p)];
        err := SignatureError(classes[proxy], proxy, p);
      }
    }
  }

  class Factory {
    const config: Config
    var checkedClasses: map<string, string>

    constructor(config: Config)
      ensures this.config == config && checkedClasses == map[]
    {
      this.config := config;
      checkedClasses := map[];
    }

    /** Returns the name of a proxy class for `className` whose signature has
        been checked, generating the class first when it is not loaded. */
    method GenerateProxy(className: string, env: Environment) returns (r: Result)
      modifies this`checkedClasses, env
      ensures var o := GenerateProxySpec(config, old(checkedClasses), old(env.State()), className);
              r == o.result && checkedClasses == o.checked && env.State() == o.world
    {
      if className in checkedClasses {
        return Success(checkedClasses[className]);
      }
      var p := ProxyParameters(className, config.factoryClass, config.version);
      var proxy := env.InflectProxyName(config.proxyNamespace, className, p);
      if proxy !in env.classes {
        var err := GenerateProxyClass(proxy, className, p, env);
        if err.Some? {
          return Failure(err.value);
        }
      }
      var err := env.CheckSignature(proxy, p);
      if err.Some? {
        return Failure(err.value);
      }
      checkedClasses := checkedClasses[className := proxy];
      return Success(proxy);
    }

    method GenerateProxyClass(proxy: string, className: string, p: Params, env: Environment) returns (err: Option<Error>)
      modifies env
      ensures (err, env.State()) == GenerateProxyClassSpec(old(env.State()), proxy, className, p)
    {
      var user := env.InflectUserName(className);
      var d := env.NewClassGenerator(proxy);
      var found := env.GenerateFrom(user, d);
      if !found {
        assert env.State() == old(env.State()).(calls := old(env.calls) + [UserName(className), NewClass(proxy)]);
        return Some(ClassNotFound(user));
      }
      d := env.AddSignature(d, p);
      env.EmitClass(d);
      env.AutoloadClass(proxy);
      assert env.calls == old(env.calls) + [UserName(className), NewClass(proxy)]
                          + [Generate(user, proxy), Sign(proxy, p), Emit(proxy), Autoload(proxy)];
      return None;
    }
  }

  // ---------------------------------------------------------------------
  // Properties of generateProxy

  /** A cache hit returns the stored name and changes nothing: no collaborator
      is called and the cache and the loaded classes stay as they are. */
  lemma CacheHitChangesNothing(cfg: Config, checked: map<string, string>, w: World, className: string)
    requires className in checked
    ensures GenerateProxySpec(cfg, checked, w, className) == Outcome(Success(checked[className]), checked, w)
  {
  }

  /** A miss that succeeds returns the inflected proxy name and caches it under
      the class name; every other cache entry is unchanged. A miss that fails
      caches nothing. */
  lemma MissCachesInflectedName(cfg: Config, checked: map<string, string>, w: World, className: string)
    requires className !in checked
    ensures var o := GenerateProxySpec(cfg, checked, w, className);
      && (o.result.Success? ==> o.result.proxyClassName == ProxyClassNameOf(cfg, className)
                                && o.checked == checked[className := o.result.proxyClassName])
      && (o.result.Failure? ==> o.checked == checked)
  {
  }

  /** The collaborator calls of a miss, in order: the proxy name; then, only
      when the proxy class is not loaded, the user class name, the new class,
      generation, signature, emission and autoloading; then the signature
      check. */
  lemma MissCallOrder(cfg: Config, checked: map<string, string>, w: World, className: string)
    requires className !in checked
    ensures var p := ParametersOf(cfg, className);
      var proxy := ProxyClassNameOf(cfg, className);
      var user := Inflector.GetUserClassName(className);
      var o := GenerateProxySpec(cfg, checked, w, className);
      && (proxy in w.classes ==>
            o.world.calls == w.calls + [ProxyName(className, p), Check(proxy, p)])
      && (proxy !in w.classes && user in w.classes ==>
            o.world.calls == w.calls + [ProxyName(className, p), UserName(className), NewClass(proxy),
                                        Generate(user, proxy), Sign(proxy, p), Emit(proxy), Autoload(proxy),
                                        Check(proxy, p)])
      && (proxy !in w.classes && user !in w.classes ==>
            o.world.calls == w.calls + [ProxyName(className, p), UserName(className), NewClass(proxy)]
            && o.result == Failure(ClassNotFound(user)))
  {
    var p := ParametersOf(cfg, className);
    var proxy := ProxyClassNameOf(cfg, className);
    var w1 := w.(calls := w.calls + [ProxyName(className, p)]);
    if proxy !in w.classes {
      var g := GenerateProxyClassSpec(w1, proxy, className, p);
      assert g.1.calls[..|w1.calls|] == w1.calls;
    }
  }

  /** Generation leaves an already loaded proxy class as it is, and after it
      runs the proxy class is loaded with the signature of the parameters. */
  lemma GenerationLoadsProxy(cfg: Config, checked: map<string, string>, w: World, className: string)
    requires className !in checked
    ensures var proxy := ProxyClassNameOf(cfg, className);
      var o := GenerateProxySpec(cfg, checked, w, className);
      && (proxy in w.classes ==> o.world.classes == w.classes && o.world.emitted == w.emitted)
      && (proxy !in w.classes && Inflector.GetUserClassName(className) in w.classes ==>
            o.world.classes == w.classes[proxy := Signed(ParametersOf(cfg, className))])
  {
  }

  /** A freshly generated proxy class always passes the signature check. */
  lemma FreshProxyPassesCheck(cfg: Config, checked: map<string, string>, w: World, className: string)
    requires className !in checked
    requires ProxyClassNameOf(cfg, className) !in w.classes
    requires Inflector.GetUserClassName(className) in w.classes
    ensures GenerateProxySpec(cfg, checked, w, className).result == Success(ProxyClassNameOf(cfg, className))
  {
  }

  /** An already loaded proxy class without the expected signature is
      rejected and nothing is cached: no signature at all, or the signature
      of other parameters (another factory, another library version). */
  lemma StaleProxyRejected(cfg: Config, checked: map<string, string>, w: World, className: string)
    requires className !in checked
    requires ProxyClassNameOf(cfg, className) in w.classes
    ensures var proxy := ProxyClassNameOf(cfg, className);
      var o := GenerateProxySpec(cfg, checked, w, className);
      && (w.classes[proxy] == Unsigned ==> o.result == Failure(MissingSignature(proxy)))
      && (w.classes[proxy].Signed? && w.classes[proxy].parameters != ParametersOf(cfg, className) ==>
            o.result == Failure(InvalidSignature(proxy)))
      && (o.result.Failure? ==> o.checked == checked)
  {
  }

  /** Loaded classes stay loaded with the signature they had. */
  lemma LoadedClassesPersist(cfg: Config, checked: map<string, string>, w: World, className: string)
    ensures var o := GenerateProxySpec(cfg, checked, w, className);
      forall n :: n in w.classes ==> n in o.world.classes && o.world.classes[n] == w.classes[n]
  {
  }

  /** A miss that succeeds leaves its proxy loaded with the signature of the
      class's proxy parameters. */
  lemma SuccessfulMissIsSigned(cfg: Config, checked: map<string, string>, w: World, className: string)
    requires className !in checked
    ensures var o := GenerateProxySpec(cfg, checked, w, className);
      o.result.Success? ==>
        && o.result.proxyClassName in o.world.classes
        && o.world.classes[o.result.proxyClassName] == Signed(ParametersOf(cfg, className))
  {
  }

  /** Every cached name has passed the signature check: the invariant holds
      after any call when it held before. */
  lemma GenerateProxyKeepsCacheSound(cfg: Config, checked: map<string, string>, w: World, className: string)
    requires CacheSound(cfg, checked, w.classes)
    ensures var o := GenerateProxySpec(cfg, checked, w, className);
      CacheSound(cfg, o.checked, o.world.classes)
  {
    var o := GenerateProxySpec(cfg, checked, w, className);
    if className !in checked {
      LoadedClassesPersist(cfg, checked, w, className);
      MissCachesInflectedName(cfg, checked, w, className);
      SuccessfulMissIsSigned(cfg, checked, w, className);
      forall c | c in o.checked
        ensures && o.checked[c] == ProxyClassNameOf(cfg, c)
                && o.checked[c] in o.world.classes
                && o.world.classes[o.checked[c]] == Signed(ParametersOf(cfg, c))
      {
        if c != className {
          assert c in checked && o.checked[c] == checked[c];
        }
      }
    }
  }

  /** Asking twice for the same class returns the same name, and the second
      call makes no collaborator call and changes nothing. */
  lemma SecondCallIsCacheHit(cfg: Config, checked: map<string, string>, w: World, className: string)
    ensures var o := GenerateProxySpec(cfg, checked, w, className);
      o.result.Success? ==>
        GenerateProxySpec(cfg, o.checked, o.world, className) == Outcome(o.result, o.checked, o.world)
  {
  }

  /** Two requests that differ in class name, factory class or library version
      get different proxy classes. */
  lemma DistinctRequestsDistinctProxies(ns: string, c1: string, f1: string, v1: string, c2: string, f2: string, v2: string)
    requires Inflector.IsProxyNamespace(ns)
    requires Inflector.MarkerFree(Inflector.GetUserClassName(c1))
    requires Inflector.MarkerFree(Inflector.GetUserClassName(c2))
    requires (c1, f1, v1) != (c2, f2, v2)
    ensures Inflector.GetProxyClassName(ns, c1, ProxyParameters(c1, f1, v1))
         != Inflector.GetProxyClassName(ns, c2, ProxyParameters(c2, f2, v2))
  {
    var p1, p2 := ProxyParameters(c1, f1, v1), ProxyParameters(c2, f2, v2);
    assert p1[0].1.s == c1 && p1[1].1.s == f1 && p1[2].1.s == v1;
    assert p2[0].1.s == c2 && p2[1].1.s == f2 && p2[2].1.s == v2;
    if Inflector.GetProxyClassName(ns, c1, p1) == Inflector.GetProxyClassName(ns, c2, p2) {
      Inflector.ProxyClassNameInjective(ns, c1, c2, p1, p2);
    }
  }
}
