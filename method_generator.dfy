/** What a method generator produces, and the text relations its tests use:
    a prefix, a suffix, and a fragment with text on both sides of it. */
module MethodGenerator {

  /** A generated method: its name, its parameter names in order, its body. */
  datatype MethodDecl = MethodDecl(name: string, parameters: seq<string>, body: string)

  predicate StartsWith(s: string, prefix: string) {
    |prefix| <= |s| && s[..|prefix|] == prefix
  }

  predicate EndsWith(s: string, suffix: string) {
    |suffix| <= |s| && s[|s| - |suffix|..] == suffix
  }

  /** `t` occurs in `s` at position `k`. */
  predicate OccursAt(s: string, t: string, k: int) {
    0 <= k && k + |t| <= |s| && s[k..k + |t|] == t
  }

  /** `t` occurs in `s` with at least one character before and one after it. */
  predicate OccursSurrounded(s: string, t: string) {
    exists k :: 0 < k && k + |t| < |s| && OccursAt(s, t, k)
  }

  lemma ConcatStartsWith(a: string, b: string)
    ensures StartsWith(a + b, a)
  {
    assert (a + b)[..|a|] == a;
  }

  lemma ConcatEndsWith(a: string, b: string)
    ensures EndsWith(a + b, b)
  {
    assert (a + b)[|a + b| - |b|..] == b;
  }

  lemma SurroundedInConcat(a: string, t: string, b: string)
    requires |a| > 0 && |b| > 0
    ensures OccursSurrounded(a + t + b, t)
  {
    var s := a + t + b;
    assert s[|a|..|a| + |t|] == t;
    assert OccursAt(s, t, |a|);
  }

  lemma StartsWithExtends(s: string, prefix: string, x: string)
    requires StartsWith(s, prefix)
    ensures StartsWith(s + x, prefix)
  {
    assert (s + x)[..|prefix|] == s[..|prefix|];
  }

  /** A text assembled from three parts starts with the first and ends with the last. */
  lemma ThreePartShape(a: string, b: string, c: string)
    ensures StartsWith(a + b + c, a) && EndsWith(a + b + c, c)
  {
    assert (a + b + c)[..|a|] == a;
    assert (a + b + c)[|a + b + c| - |c|..] == c;
  }

  lemma EndsWithTransitive(s: string, t: string, u: string)
    requires EndsWith(s, t) && EndsWith(t, u)
    ensures EndsWith(s, u)
  {
    assert s[|s| - |u|..] == s[|s| - |t|..][|t| - |u|..];
  }
}
