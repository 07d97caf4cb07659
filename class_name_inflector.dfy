/** The class-name inflector: maps a user class name to the name of its proxy,
    `<proxy namespace>\__PM__\<user class name>\Generated<hash of parameters>`,
    recognises proxy names by the marker segment and recovers the user class
    name from a proxy name.

    Names are PHP strings; `Split` cuts them into namespace segments at `\`.
    "The marker occurs in the name" (a search for `\__PM__\`) is "some segment
    other than the first and the last is `__PM__`". */
module ClassNameInflector {
  import opened Strings
  import opened ParameterHash

  const Separator: char := '\\'
  const ProxyMarker: string := "__PM__"
  const GeneratedPrefix: string := "Generated"

  /** The namespace segments of a name: the texts between separators. */
  function Split(s: string): (r: seq<string>)
    ensures |r| >= 1
    ensures forall i :: 0 <= i < |r| ==> Separator !in r[i]
  {
    if s == [] then [""]
    else if s[0] == Separator then [""] + Split(s[1..])
    else var t := Split(s[1..]); [[s[0]] + t[0]] + t[1..]
  }

  /** Namespace segments put back together with separators. */
  function Join(segs: seq<string>): string {
    if |segs| == 0 then ""
    else if |segs| == 1 then segs[0]
    else segs[0] + [Separator] + Join(segs[1..])
  }

  /** Segment `j` is a marker with a separator on both sides. */
  predicate IsMarkerAt(segs: seq<string>, j: int) {
    0 < j < |segs| - 1 && segs[j] == ProxyMarker
  }

  /** The position of the last marker below `k`, or -1 when there is none. */
  function LastMarkerBefore(segs: seq<string>, k: nat): (i: int)
    requires k <= |segs|
    ensures -1 <= i < k
    ensures i >= 0 ==> IsMarkerAt(segs, i)
    ensures forall j :: i < j < k ==> !IsMarkerAt(segs, j)
  {
    if k == 0 then -1
    else if IsMarkerAt(segs, k - 1) then k - 1
    else LastMarkerBefore(segs, k - 1)
  }

  function MarkerIndex(segs: seq<string>): int {
    LastMarkerBefore(segs, |segs|)
  }

  /** Drops one leading namespace separator: `\Foo\Bar` and `Foo\Bar` name the same class. */
  function StripLeadingSeparator(name: string): (r: string)
    ensures name == r || name == [Separator] + r
    ensures r != name <==> |name| > 0 && name[0] == Separator
  {
    if |name| > 0 && name[0] == Separator then name[1..] else name
  }

  /** Whether a name contains the proxy marker. */
  function IsProxyClassName(name: string): (b: bool)
    ensures b <==> exists j :: IsMarkerAt(Split(name), j)
  {
    MarkerIndexFindsMarker(name);
    MarkerIndex(Split(name)) >= 0
  }

  /** The marker search succeeds exactly when some segment is the marker. */
  lemma MarkerIndexFindsMarker(name: string)
    ensures MarkerIndex(Split(name)) >= 0 <==> exists j :: IsMarkerAt(Split(name), j)
  {
  }

  /** The user class name: a name without marker is itself (less a leading
      separator); for a proxy name it is the text between the last marker
      and the last separator. */
  function GetUserClassName(name: string): (r: string)
    ensures IsUserClassName(StripLeadingSeparator(name)) ==> r == StripLeadingSeparator(name)
    ensures IsProxyClassName(StripLeadingSeparator(name)) ==> MarkerFree(r)
  {
    var plain := StripLeadingSeparator(name);
    var segs := Split(plain);
    var i := MarkerIndex(segs);
    if i < 0 then plain
    else
      SegmentsAfterLastMarker(segs, i);
      Join(segs[i + 1 .. |segs| - 1])
  }

  /** The proxy class name for `name` generated with parameters `p`. */
  function GetProxyClassName(proxyNamespace: string, name: string, p: Params): (r: string)
    ensures |r| == |proxyNamespace| + 8 + |GetUserClassName(name)| + 10 + |Hash(p)|
    ensures r[..|proxyNamespace| + 8] == proxyNamespace + "\\__PM__\\"
    ensures r[|r| - |Hash(p)| - 10..] == "\\Generated" + Hash(p)
  {
    ProxyNameAffixes(proxyNamespace, GetUserClassName(name), Hash(p));
    proxyNamespace + [Separator] + ProxyMarker + [Separator] + GetUserClassName(name)
      + [Separator] + GeneratedPrefix + Hash(p)
  }

  /** A proxy name starts with the namespace and the marker, and ends with
      the generated prefix and the hash. */
  lemma ProxyNameAffixes(ns: string, u: string, h: string)
    ensures var r := ns + [Separator] + ProxyMarker + [Separator] + u + [Separator] + GeneratedPrefix + h;
      && |r| == |ns| + 8 + |u| + 10 + |h|
      && r[..|ns| + 8] == ns + "\\__PM__\\"
      && r[|r| - |h| - 10..] == "\\Generated" + h
  {
    var head, tail := ns + "\\__PM__\\", "\\Generated" + h;
    assert [Separator] + ProxyMarker + [Separator] == "\\__PM__\\";
    assert [Separator] + GeneratedPrefix == "\\Generated";
    RegroupLiterals(ns, [Separator], ProxyMarker, u, GeneratedPrefix, h);
    assert (head + u + tail)[..|head|] == head;
    assert (head + u + tail)[|head| + |u|..] == tail;
  }

  /** No segment of the name is the marker. */
  predicate MarkerFree(name: string) {
    forall i :: 0 <= i < |Split(name)| ==> Split(name)[i] != ProxyMarker
  }

  /** A user class name: no leading separator and no marker segment. */
  predicate IsUserClassName(name: string) {
    (|name| == 0 || name[0] != Separator) && MarkerFree(name)
  }

  /** A proxy namespace the inflector can be configured with. */
  predicate IsProxyNamespace(ns: string) {
    |ns| > 0 && ns[0] != Separator
  }

  /** Every segment of the name is a PHP identifier. */
  predicate IsQualifiedName(name: string) {
    forall i :: 0 <= i < |Split(name)| ==> IsIdentifier(Split(name)[i])
  }

  // ---------------------------------------------------------------------
  // Segments and text

  lemma {:induction false} JoinSplit(s: string)
    ensures Join(Split(s)) == s
  {
    if s != [] {
      JoinSplit(s[1..]);
      var t := Split(s[1..]);
      if s[0] == Separator {
        assert Split(s) == [""] + t;
        assert ([""] + t)[1..] == t;
        assert s == [Separator] + s[1..];
      } else {
        var r := [[s[0]] + t[0]] + t[1..];
        if |t| == 1 {
          assert Join(r) == [s[0]] + t[0];
        } else {
          assert r[1..] == t[1..];
          assert Join(r) == [s[0]] + t[0] + [Separator] + Join(t[1..]);
          assert Join(t) == t[0] + [Separator] + Join(t[1..]);
        }
        assert s == [s[0]] + s[1..];
      }
    }
  }

  lemma {:induction false} SplitPlain(a: string)
    requires Separator !in a
    ensures Split(a) == [a]
  {
    if a != [] {
      SplitPlain(a[1..]);
      assert a == [a[0]] + a[1..];
    }
  }

  /** Extending the first segment of `t` commutes with appending `v`. */
  lemma ExtendFirstSegment(c: char, t: seq<string>, v: seq<string>)
    requires |t| >= 1
    ensures [[c] + (t + v)[0]] + (t + v)[1..] == ([[c] + t[0]] + t[1..]) + v
  {
    assert (t + v)[1..] == t[1..] + v;
  }

  /** A separator between two texts separates their segments. */
  lemma {:induction false} SplitConcat(a: string, b: string)
    ensures Split(a + [Separator] + b) == Split(a) + Split(b)
  {
    var s := a + [Separator] + b;
    if a == [] {
      assert s[1..] == b;
    } else {
      var s1 := a[1..] + [Separator] + b;
      assert s[0] == a[0] && s[1..] == s1;
      SplitConcat(a[1..], b);
      if a[0] != Separator {
        ExtendFirstSegment(a[0], Split(a[1..]), Split(b));
      }
    }
  }

  lemma {:induction false} SplitJoin(segs: seq<string>)
    requires |segs| >= 1
    requires forall i :: 0 <= i < |segs| ==> Separator !in segs[i]
    ensures Split(Join(segs)) == segs
  {
    SplitPlain(segs[0]);
    if |segs| > 1 {
      SplitJoin(segs[1..]);
      SplitConcat(segs[0], Join(segs[1..]));
      assert segs == [segs[0]] + segs[1..];
    }
  }

  /** The segments of a proxy name: the namespace, the marker, the user class
      name and the generated suffix. */
  lemma ProxyNameSegments(ns: string, name: string, p: Params)
    ensures Split(GetProxyClassName(ns, name, p))
         == Split(ns) + [ProxyMarker] + Split(GetUserClassName(name)) + [GeneratedPrefix + Hash(p)]
  {
    var u, g := GetUserClassName(name), GeneratedPrefix + Hash(p);
    SplitProxyTail(u, g, p);
    var t2 := ProxyMarker + [Separator] + (u + [Separator] + g);
    ProxyNameAssociates(ns, u, p);
    assert GetProxyClassName(ns, name, p) == ns + [Separator] + t2;
    SplitConcat(ns, t2);
    assert Split(ns) + ([ProxyMarker] + Split(u) + [g]) == Split(ns) + [ProxyMarker] + Split(u) + [g];
  }

  lemma SplitProxyTail(u: string, g: string, p: Params)
    requires g == GeneratedPrefix + Hash(p)
    ensures Split(ProxyMarker + [Separator] + (u + [Separator] + g)) == [ProxyMarker] + Split(u) + [g]
  {
    GeneratedSuffixIsPlain(p);
    SplitPlain(g);
    var t1 := u + [Separator] + g;
    SplitConcat(u, g);
    MarkerIsPlain();
    SplitConcat(ProxyMarker, t1);
  }

  lemma ProxyNameAssociates(ns: string, u: string, p: Params)
    ensures ns + [Separator] + ProxyMarker + [Separator] + u + [Separator] + GeneratedPrefix + Hash(p)
         == ns + [Separator] + (ProxyMarker + [Separator] + (u + [Separator] + (GeneratedPrefix + Hash(p))))
  {
    RegroupRight(ns, [Separator], ProxyMarker, u, GeneratedPrefix, Hash(p));
  }

  /** Regrouping of the pieces of a proxy name from the right. */
  lemma RegroupRight(ns: string, s: string, m: string, u: string, g: string, h: string)
    ensures ns + s + m + s + u + s + g + h == ns + s + (m + s + (u + s + (g + h)))
  {
  }

  /** Regrouping of the pieces of a proxy name around its literal parts. */
  lemma RegroupLiterals(ns: string, s: string, m: string, u: string, g: string, h: string)
    ensures ns + s + m + s + u + s + g + h == ns + (s + m + s) + u + (s + g) + h
  {
  }

  lemma MarkerIsPlain()
    ensures Split(ProxyMarker) == [ProxyMarker]
  {
    SplitPlain(ProxyMarker);
  }

  /** The generated suffix holds no separator. */
  lemma GeneratedSuffixIsPlain(p: Params)
    ensures Separator !in GeneratedPrefix + Hash(p)
  {
    var g := GeneratedPrefix + Hash(p);
    forall i | 0 <= i < |g| ensures g[i] != Separator {
      if i >= |GeneratedPrefix| { assert g[i] == Hash(p)[i - |GeneratedPrefix|]; }
    }
  }

  // ---------------------------------------------------------------------
  // Recognition and recovery of the user class name

  /** A user class name is not a proxy name, and is its own user class name. */
  lemma UserClassNameIsFixed(u: string)
    requires IsUserClassName(u)
    ensures !IsProxyClassName(u)
    ensures GetUserClassName(u) == u
  {
    var segs := Split(u);
    assert forall j :: 0 <= j < |segs| ==> !IsMarkerAt(segs, j);
  }

  /** Every generated proxy name is recognised as one. */
  lemma ProxyClassNameIsRecognised(ns: string, name: string, p: Params)
    ensures IsProxyClassName(GetProxyClassName(ns, name, p))
  {
    ProxyNameSegments(ns, name, p);
    var segs := Split(GetProxyClassName(ns, name, p));
    assert IsMarkerAt(segs, |Split(ns)|);
  }

  /** The user class name recovered from a proxy name is the one it was built
      from (`getUserClassName` inverts `getProxyClassName`). */
  lemma UserClassNameRoundTrip(ns: string, name: string, p: Params)
    requires IsProxyNamespace(ns)
    requires MarkerFree(GetUserClassName(name))
    ensures GetUserClassName(GetProxyClassName(ns, name, p)) == GetUserClassName(name)
  {
    var proxy, u := GetProxyClassName(ns, name, p), GetUserClassName(name);
    ProxyNameSegments(ns, name, p);
    assert proxy[0] == ns[0];
    assert StripLeadingSeparator(proxy) == proxy;
    var segs, su, n := Split(proxy), Split(u), |Split(ns)|;
    assert segs[n] == ProxyMarker;
    assert IsMarkerAt(segs, n);
    forall j | n < j < |segs| - 1 ensures !IsMarkerAt(segs, j) {
      assert segs[j] == su[j - n - 1];
    }
    assert MarkerIndex(segs) == n;
    assert segs[n + 1 .. |segs| - 1] == su;
    JoinSplit(u);
  }

  /** The segments strictly between the last marker and the last segment
      carry no marker, and neither does the name they join into. */
  lemma SegmentsAfterLastMarker(segs: seq<string>, i: int)
    requires IsMarkerAt(segs, i)
    requires forall j :: i < j < |segs| ==> !IsMarkerAt(segs, j)
    requires forall k :: 0 <= k < |segs| ==> Separator !in segs[k]
    ensures MarkerFree(Join(segs[i + 1 .. |segs| - 1]))
  {
    var sub := segs[i + 1 .. |segs| - 1];
    forall k | 0 <= k < |sub| ensures sub[k] != ProxyMarker {
      assert sub[k] == segs[i + 1 + k];
      assert !IsMarkerAt(segs, i + 1 + k);
    }
    if sub != [] {
      SplitJoin(sub);
    } else {
      assert Split(Join(sub)) == [""];
    }
  }

  /** Re-proxying a proxy name does not nest markers: it yields the proxy name
      of the same user class. */
  lemma ProxyOfProxyName(ns: string, name: string, p: Params, q: Params)
    requires IsProxyNamespace(ns)
    requires MarkerFree(GetUserClassName(name))
    ensures GetProxyClassName(ns, GetProxyClassName(ns, name, p), q) == GetProxyClassName(ns, name, q)
  {
    UserClassNameRoundTrip(ns, name, p);
  }

  /** The shape of the proxy name of a user class:
      `<namespace>\__PM__\<user class>\Generated<hash>`. */
  lemma ProxyClassNameShape(ns: string, u: string, p: Params)
    requires IsUserClassName(u)
    ensures GetProxyClassName(ns, u, p) == ns + "\\__PM__\\" + u + "\\Generated" + Hash(p)
  {
    UserClassNameIsFixed(u);
    RegroupLiterals(ns, [Separator], ProxyMarker, u, GeneratedPrefix, Hash(p));
    assert [Separator] + ProxyMarker + [Separator] == "\\__PM__\\";
    assert [Separator] + GeneratedPrefix == "\\Generated";
  }

  /** One leading separator in the class name makes no difference. */
  lemma LeadingSeparatorIgnored(ns: string, name: string, p: Params)
    requires |name| == 0 || name[0] != Separator
    ensures GetUserClassName([Separator] + name) == GetUserClassName(name)
    ensures GetProxyClassName(ns, [Separator] + name, p) == GetProxyClassName(ns, name, p)
  {
    var n := [Separator] + name;
    assert n[0] == Separator && n[1..] == name;
    assert StripLeadingSeparator(n) == StripLeadingSeparator(name);
  }

  // ---------------------------------------------------------------------
  // Distinctness

  /** Different parameter lists (another value, an added key, another key
      order) give the same class different proxy names. */
  lemma DifferentParametersDifferentNames(ns: string, name: string, p: Params, q: Params)
    requires p != q
    ensures GetProxyClassName(ns, name, p) != GetProxyClassName(ns, name, q)
  {
    var prefix := ns + [Separator] + ProxyMarker + [Separator] + GetUserClassName(name)
      + [Separator] + GeneratedPrefix;
    assert GetProxyClassName(ns, name, p) == prefix + Hash(p);
    assert GetProxyClassName(ns, name, q) == prefix + Hash(q);
    if GetProxyClassName(ns, name, p) == GetProxyClassName(ns, name, q) {
      AfterCommonPrefix(prefix, Hash(p), Hash(q));
      HashInjective(p, q);
    }
  }

  /** A proxy name determines both the user class and the parameters it was
      generated from. */
  lemma ProxyClassNameInjective(ns: string, a: string, b: string, p: Params, q: Params)
    requires IsProxyNamespace(ns)
    requires MarkerFree(GetUserClassName(a)) && MarkerFree(GetUserClassName(b))
    requires GetProxyClassName(ns, a, p) == GetProxyClassName(ns, b, q)
    ensures GetUserClassName(a) == GetUserClassName(b)
    ensures p == q
  {
    UserClassNameRoundTrip(ns, a, p);
    UserClassNameRoundTrip(ns, b, q);
    assert GetProxyClassName(ns, a, q) == GetProxyClassName(ns, b, q);
    if p != q {
      DifferentParametersDifferentNames(ns, a, p, q);
    }
  }

  // ---------------------------------------------------------------------
  // Proxy names are valid PHP class names

  /** Every segment of a proxy name is an identifier when the namespace and the
      user class name are qualified names, whatever the parameters hold. */
  lemma ProxyClassNameIsQualified(ns: string, name: string, p: Params)
    requires IsQualifiedName(ns) && IsQualifiedName(GetUserClassName(name))
    ensures IsQualifiedName(GetProxyClassName(ns, name, p))
  {
    ProxyNameSegments(ns, name, p);
    GeneratedSegmentIsIdentifier(p);
    assert IsIdentifier(ProxyMarker);
    SegmentsAreIdentifiers(Split(ns), ProxyMarker, Split(GetUserClassName(name)), GeneratedPrefix + Hash(p));
  }

  /** The last segment of a proxy name, `Generated<hash>`, is an identifier. */
  lemma GeneratedSegmentIsIdentifier(p: Params)
    ensures IsIdentifier(GeneratedPrefix + Hash(p))
  {
    var g, h := GeneratedPrefix + Hash(p), Hash(p);
    forall i | 0 <= i < |g| ensures IsIdentifierChar(g[i]) {
      if i >= |GeneratedPrefix| { assert g[i] == h[i - |GeneratedPrefix|]; }
    }
  }

  /** Four groups of identifier segments, put together, are identifier segments. */
  lemma SegmentsAreIdentifiers(a: seq<string>, m: string, b: seq<string>, g: string)
    requires forall i :: 0 <= i < |a| ==> IsIdentifier(a[i])
    requires forall i :: 0 <= i < |b| ==> IsIdentifier(b[i])
    requires IsIdentifier(m) && IsIdentifier(g)
    ensures var segs := a + [m] + b + [g]; forall i :: 0 <= i < |segs| ==> IsIdentifier(segs[i])
  {
    var segs := a + [m] + b + [g];
    forall i | 0 <= i < |segs| ensures IsIdentifier(segs[i]) {
      if i < |a| {
        assert segs[i] == a[i];
      } else if i == |a| {
        assert segs[i] == m;
      } else if i < |a| + 1 + |b| {
        assert segs[i] == b[i - |a| - 1];
      } else {
        assert segs[i] == g;
      }
    }
  }

  lemma {:induction false} JoinCharacters(segs: seq<string>)
    requires forall i :: 0 <= i < |segs| ==> IsIdentifier(segs[i])
    ensures forall k :: 0 <= k < |Join(segs)| ==> Join(segs)[k] == Separator || IsIdentifierChar(Join(segs)[k])
  {
    if |segs| > 1 {
      JoinCharacters(segs[1..]);
      var a, b := segs[0] + [Separator], Join(segs[1..]);
      assert Join(segs) == a + b;
      forall k | 0 <= k < |a + b| ensures (a + b)[k] == Separator || IsIdentifierChar((a + b)[k]) {
        if k >= |a| { assert (a + b)[k] == b[k - |a|]; }
      }
    }
  }

  /** A qualified name consists only of identifier characters and separators. */
  lemma QualifiedNameCharacters(s: string)
    requires IsQualifiedName(s)
    ensures forall k :: 0 <= k < |s| ==> s[k] == Separator || IsIdentifierChar(s[k])
  {
    JoinSplit(s);
    JoinCharacters(Split(s));
  }

  lemma FooBarSegments()
    ensures Split("Foo") == ["Foo"]
    ensures Split("Foo\\Bar") == ["Foo", "Bar"]
  {
    SplitPlain("Foo");
    SplitPlain("Bar");
    SplitConcat("Foo", "Bar");
    assert "Foo\\Bar" == "Foo" + [Separator] + "Bar";
  }

  /** The examples of the inflector's tests: `Foo` and `Foo\Bar` are user
      class names and not proxy names. */
  lemma TestUserClassNames()
    ensures !IsProxyClassName("Foo") && GetUserClassName("Foo") == "Foo"
    ensures !IsProxyClassName("Foo\\Bar") && GetUserClassName("Foo\\Bar") == "Foo\\Bar"
  {
    FooBarSegments();
    UserClassNameIsFixed("Foo");
    UserClassNameIsFixed("Foo\\Bar");
  }

  lemma ProxyNSFooBarPrefix()
    ensures "ProxyNS" + "\\__PM__\\" + "Foo\\Bar" + "\\Generated" == "ProxyNS\\__PM__\\Foo\\Bar\\Generated"
  {
    var a := "ProxyNS" + "\\__PM__\\";
    assert a == "ProxyNS\\__PM__\\";
    var b := a + "Foo\\Bar";
    assert b == "ProxyNS\\__PM__\\Foo\\Bar";
  }

  /** In namespace `ProxyNS` the proxy name of `Foo\Bar` is
      `ProxyNS\__PM__\Foo\Bar\Generated<hash>`, is recognised as a proxy name
      and gives `Foo\Bar` back. */
  lemma TestProxyClassNames(p: Params)
    ensures GetProxyClassName("ProxyNS", "Foo\\Bar", p) == "ProxyNS\\__PM__\\Foo\\Bar\\Generated" + Hash(p)
    ensures IsProxyClassName(GetProxyClassName("ProxyNS", "Foo\\Bar", p))
    ensures GetUserClassName(GetProxyClassName("ProxyNS", "Foo\\Bar", p)) == "Foo\\Bar"
  {
    var u := "Foo\\Bar";
    FooBarSegments();
    assert IsUserClassName(u);
    UserClassNameIsFixed(u);
    ProxyClassNameShape("ProxyNS", u, p);
    ProxyNSFooBarPrefix();
    UserClassNameRoundTrip("ProxyNS", u, p);
    ProxyClassNameIsRecognised("ProxyNS", u, p);
  }
}
