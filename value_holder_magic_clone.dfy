/** The `__clone` method generated for lazy-loading value holders.

    Its body first runs the initializer, if one is still set, with the
    value holder, the proxy, the operation `__clone`, no parameters and the
    initializer itself; it then replaces the value holder with a clone of it,
    so that the clone of a proxy wraps a copy of the real object. */
module ValueHolderMagicClone {
  import opened Strings
  import opened MethodGenerator

  /** The guarded initializer call; the space after the first initializer
      name and the comma after the value holder are written as separate
      pieces because the injectivity proof cuts the text there. */
  function InitializerCall(initializer: string, valueHolder: string): string {
    "$this->" + initializer + " " + "&& $this->" + initializer + "->__invoke($this->" + valueHolder
    + "," + " $this, '__clone', array(), $this->" + initializer + ");"
  }

  /** The replacement of the value holder by a clone of it. */
  function CloneHolder(valueHolder: string): string {
    "$this->" + valueHolder + " = clone $this->" + valueHolder + ";"
  }

  function CloneBody(initializer: string, valueHolder: string): string {
    InitializerCall(initializer, valueHolder) + "\n\n" + CloneHolder(valueHolder)
  }

  /** `MagicClone`: a method `__clone()` without parameters. */
  function MagicClone(initializer: string, valueHolder: string): (r: MethodDecl)
    ensures r == MethodDecl("__clone", [], r.body)
  {
    MethodDecl("__clone", [], CloneBody(initializer, valueHolder))
  }

  /** The body is two statements separated by an empty line: the initializer
      call first, the cloning of the value holder last. */
  lemma MagicCloneShape(initializer: string, valueHolder: string)
    ensures var body := MagicClone(initializer, valueHolder).body;
      && StartsWith(body, InitializerCall(initializer, valueHolder))
      && EndsWith(body, CloneHolder(valueHolder))
      && |body| == |InitializerCall(initializer, valueHolder)| + 2 + |CloneHolder(valueHolder)|
      && body[|InitializerCall(initializer, valueHolder)|..|InitializerCall(initializer, valueHolder)| + 2] == "\n\n"
  {
    var a := InitializerCall(initializer, valueHolder);
    ThreePartShape(a, "\n\n", CloneHolder(valueHolder));
    assert (a + "\n\n" + CloneHolder(valueHolder))[|a|..|a| + 2] == "\n\n";
  }

  /** No identifier contains a space or a comma. */
  lemma IdentifierHasNoSeparators(s: string)
    requires IsIdentifier(s)
    ensures ' ' !in s && ',' !in s
  {
    forall i | 0 <= i < |s| ensures s[i] != ' ' && s[i] != ',' {
      assert IsIdentifierChar(s[i]);
    }
  }

  /** Text after `$this-><initializer>` and its space. */
  function AfterInitializer(initializer: string, valueHolder: string): string {
    "&& $this->" + initializer + "->__invoke($this->" + valueHolder + "," + AfterValueHolder(initializer, valueHolder)
  }

  /** Text after the value holder's first occurrence and its comma. */
  function AfterValueHolder(initializer: string, valueHolder: string): string {
    " $this, '__clone', array(), $this->" + initializer + ");" + "\n\n" + CloneHolder(valueHolder)
  }

  /** Regrouping of a thirteen-piece concatenation, as the body is cut below. */
  lemma Regroup(a: string, i: string, sp: string, b: string, i2: string, c: string, v: string, k: string,
                t: string, i3: string, e: string, nl: string, h: string)
    ensures a + i + sp + b + i2 + c + v + k + t + i3 + e + nl + h
         == a + (i + sp + ((b + i2 + c + v + k) + (t + i3 + e + nl + h)))
  {
  }

  /** Regrouping of a six-piece concatenation after its third piece. */
  lemma Regroup6(a: string, b: string, c: string, d: string, e: string, f: string)
    ensures a + b + c + d + e + f == (a + b + c) + (d + e + f)
  {
  }

  lemma CloneBodyParts(initializer: string, valueHolder: string)
    ensures CloneBody(initializer, valueHolder)
         == "$this->" + (initializer + " " + AfterInitializer(initializer, valueHolder))
  {
    Regroup("$this->", initializer, " ", "&& $this->", initializer, "->__invoke($this->", valueHolder, ",",
            " $this, '__clone', array(), $this->", initializer, ");", "\n\n", CloneHolder(valueHolder));
  }

  /** The text up to the first space determines the initializer. */
  lemma InitializerDetermined(i1: string, v1: string, i2: string, v2: string)
    requires IsIdentifier(i1) && IsIdentifier(i2)
    requires CloneBody(i1, v1) == CloneBody(i2, v2)
    ensures i1 == i2 && AfterInitializer(i1, v1) == AfterInitializer(i2, v2)
  {
    IdentifierHasNoSeparators(i1);
    IdentifierHasNoSeparators(i2);
    CloneBodyParts(i1, v1);
    CloneBodyParts(i2, v2);
    AfterCommonPrefix("$this->", i1 + " " + AfterInitializer(i1, v1), i2 + " " + AfterInitializer(i2, v2));
    HeadBeforeDelimiter(i1, AfterInitializer(i1, v1), i2, AfterInitializer(i2, v2), ' ');
  }

  /** Once the initializer is known, the text up to the next comma
      determines the value holder. */
  lemma ValueHolderDetermined(i: string, v1: string, v2: string)
    requires IsIdentifier(v1) && IsIdentifier(v2)
    requires AfterInitializer(i, v1) == AfterInitializer(i, v2)
    ensures v1 == v2
  {
    IdentifierHasNoSeparators(v1);
    IdentifierHasNoSeparators(v2);
    var prefix := "&& $this->" + i + "->__invoke($this->";
    Regroup6("&& $this->", i, "->__invoke($this->", v1, ",", AfterValueHolder(i, v1));
    Regroup6("&& $this->", i, "->__invoke($this->", v2, ",", AfterValueHolder(i, v2));
    AfterCommonPrefix(prefix, v1 + "," + AfterValueHolder(i, v1), v2 + "," + AfterValueHolder(i, v2));
    HeadBeforeDelimiter(v1, AfterValueHolder(i, v1), v2, AfterValueHolder(i, v2), ',');
  }

  /** Distinct property names give distinct bodies: the body determines the
      initializer and the value holder it was generated from. */
  lemma MagicCloneInjective(i1: string, v1: string, i2: string, v2: string)
    requires IsIdentifier(i1) && IsIdentifier(v1) && IsIdentifier(i2) && IsIdentifier(v2)
    requires MagicClone(i1, v1).body == MagicClone(i2, v2).body
    ensures i1 == i2 && v1 == v2
  {
    InitializerDetermined(i1, v1, i2, v2);
    ValueHolderDetermined(i1, v1, v2);
  }
  // ---------------------------------------------------------------------
  // The body for the initializer `foo` and the value holder `bar`

  /** The body cut where the pieces below are compared with literal text. */
  lemma CloneBodyPieces(initializer: string, valueHolder: string)
    ensures CloneBody(initializer, valueHolder)
         == ("$this->" + initializer + " " + "&& $this->" + initializer)
            + ("->__invoke($this->" + valueHolder + ",")
            + (" $this, '__clone', array(), $this->" + initializer + ");")
            + "\n\n" + CloneHolder(valueHolder)
  {
    Regroup7("$this->" + initializer + " " + "&& $this->" + initializer, "->__invoke($this->", valueHolder, ",",
             " $this, '__clone', array(), $this->" + initializer + ");", "\n\n", CloneHolder(valueHolder));
  }

  lemma Regroup7(a: string, b: string, c: string, d: string, e: string, f: string, g: string)
    ensures a + b + c + d + e + f + g == a + (b + c + d) + e + f + g
  {
  }

  /** Regrouping of five pieces, the third of which is cut in two. */
  lemma RegroupAcross(a: string, b: string, c1: string, c2: string, e: string, f: string)
    ensures a + b + (c1 + c2) + e + f == (a + b + c1) + (c2 + e + f)
  {
  }

  lemma FooBarInitializerHead()
    ensures "$this->" + "foo" + " " + "&& $this->" + "foo" == "$this->foo && $this->foo"
  {
  }

  lemma FooBarInvoke()
    ensures "->__invoke($this->" + "bar" + "," == "->__invoke($this->bar,"
  {
  }

  lemma FooBarInitializerTail()
    ensures " $this, '__clone', array(), $this->" + "foo" + ");" == " $this, " + "'__clone', array(), $this->foo);"
  {
  }

  lemma BarCloneHolder()
    ensures CloneHolder("bar") == "$this->bar = clone $this->bar;"
  {
  }

  lemma FooBarFirstHalf()
    ensures "$this->foo && $this->foo" + "->__invoke($this->bar," + " $this, "
         == "$this->foo && $this->foo->__invoke($this->bar, $this, "
  {
  }

  lemma FooBarSecondHalf()
    ensures "'__clone', array(), $this->foo);" + "\n\n" + "$this->bar = clone $this->bar;"
         == "'__clone', array(), $this->foo);\n\n$this->bar = clone $this->bar;"
  {
  }

  /** The body generated for the initializer `foo` and the value holder
      `bar` is exactly the expected text, written in the same two pieces. */
  lemma MagicCloneFooBar()
    ensures MagicClone("foo", "bar").body
         == "$this->foo && $this->foo->__invoke($this->bar, $this, "
            + "'__clone', array(), $this->foo);\n\n$this->bar = clone $this->bar;"
  {
    CloneBodyPieces("foo", "bar");
    FooBarInitializerHead();
    FooBarInvoke();
    FooBarInitializerTail();
    BarCloneHolder();
    RegroupAcross("$this->foo && $this->foo", "->__invoke($this->bar,", " $this, ",
                  "'__clone', array(), $this->foo);", "\n\n", "$this->bar = clone $this->bar;");
    FooBarFirstHalf();
    FooBarSecondHalf();
  }
}
