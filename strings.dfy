/** Character classes of PHP identifiers and small facts about strings
    cut at a delimiter, shared by the class-name and code-template models. */
module Strings {

  /** A character that may start a PHP identifier: `[a-zA-Z_\x7f-\xff]`. */
  predicate IsIdentifierStart(c: char) {
    ('a' <= c <= 'z') || ('A' <= c <= 'Z') || c == '_' || (0x7f <= c as int <= 0xff)
  }

  /** A character that may continue a PHP identifier: `[a-zA-Z0-9_\x7f-\xff]`. */
  predicate IsIdentifierChar(c: char) {
    IsIdentifierStart(c) || ('0' <= c <= '9')
  }

  /** A non-empty PHP identifier (a class, property or method name without namespace). */
  predicate IsIdentifier(s: string) {
    |s| > 0 && IsIdentifierStart(s[0]) && forall i :: 0 <= i < |s| ==> IsIdentifierChar(s[i])
  }

  /** Text cut at the first occurrence of a delimiter that occurs in neither head
      determines both the head and the rest. */
  lemma HeadBeforeDelimiter<T>(a: seq<T>, x: seq<T>, b: seq<T>, y: seq<T>, d: T)
    requires d !in a && d !in b
    requires a + [d] + x == b + [d] + y
    ensures a == b && x == y
  {
    var s := a + [d] + x;
    assert forall i :: 0 <= i < |a| ==> s[i] == a[i];
    assert forall i :: 0 <= i < |b| ==> s[i] == b[i];
    assert s[|a|] == d && s[|b|] == d;
    assert |a| == |b|;
    assert a == s[..|a|] == b;
    assert x == s[|a| + 1..] == y;
  }

  /** Equal texts that start with the same prefix agree after it. */
  lemma AfterCommonPrefix<T>(p: seq<T>, x: seq<T>, y: seq<T>)
    requires p + x == p + y
    ensures x == y
  {
    assert x == (p + x)[|p|..];
    assert y == (p + y)[|p|..];
  }
}
