/** The `__set` method generated for access-interceptor scope localizers.

    Its body is the interceptor wrapper (prefix interceptors before, suffix
    interceptors and the return after) around one statement that performs
    the assignment and binds `$returnValue` by reference: the parent's
    `__set` when the user class defines one, otherwise the public-scope
    simulation, which ends by calling its accessor. The wrapper and the
    simulation code come from generators outside this model and are inputs. */
module ScopeLocalizerMagicSet {
  import opened MethodGenerator

  const ParentSetCall: string := "$returnValue = & parent::__set($name, $value);"
  const AccessorSetCall: string := "$returnValue = & $accessor();"

  /** The code the interceptor generator puts before and after the statement. */
  datatype InterceptorWrapper = InterceptorWrapper(before: string, after: string)

  /** The assignment statement, chosen by whether the user class defines `__set`. */
  function SetStatement(parentHasSet: bool, scopeSimulation: string): string {
    if parentHasSet then ParentSetCall else scopeSimulation + AccessorSetCall
  }

  /** `MagicSet`: the method is `__set($name, $value)` whichever statement it wraps. */
  function MagicSet(parentHasSet: bool, wrapper: InterceptorWrapper, scopeSimulation: string): (r: MethodDecl)
    ensures r == MethodDecl("__set", ["name", "value"], r.body)
  {
    MethodDecl("__set", ["name", "value"], wrapper.before + SetStatement(parentHasSet, scopeSimulation) + wrapper.after)
  }

  /** Inside a non-empty wrapper, the body binds the return value from the
      parent's `__set` when the user class has one, and from the accessor
      otherwise. */
  lemma MagicSetBindsReturnValue(parentHasSet: bool, wrapper: InterceptorWrapper, scopeSimulation: string)
    requires |wrapper.before| > 0 && |wrapper.after| > 0
    ensures var body := MagicSet(parentHasSet, wrapper, scopeSimulation).body;
      && (parentHasSet ==> OccursSurrounded(body, ParentSetCall))
      && (!parentHasSet ==> OccursSurrounded(body, AccessorSetCall))
  {
    var body := MagicSet(parentHasSet, wrapper, scopeSimulation).body;
    if parentHasSet {
      SurroundedInConcat(wrapper.before, ParentSetCall, wrapper.after);
    } else {
      assert body == (wrapper.before + scopeSimulation) + AccessorSetCall + wrapper.after;
      SurroundedInConcat(wrapper.before + scopeSimulation, AccessorSetCall, wrapper.after);
    }
  }

  /** The statement shows which template was chosen: it ends with the
      accessor call exactly when the user class has no `__set`. */
  lemma StatementRevealsParent(parentHasSet: bool, scopeSimulation: string)
    ensures EndsWith(SetStatement(parentHasSet, scopeSimulation), AccessorSetCall) <==> !parentHasSet
  {
    if parentHasSet {
      var p, a := ParentSetCall, AccessorSetCall;
      assert p[|p| - 3] == 'e';
      assert a[|a| - 3] == '(';
      assert p[|p| - |a|..][|a| - 3] == p[|p| - 3];
    } else {
      ConcatEndsWith(scopeSimulation, AccessorSetCall);
    }
  }
}
