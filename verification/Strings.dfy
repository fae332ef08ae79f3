/** The string functions of Go's standard library that the collection uses. */
module Strings {
  import opened Wrappers

  predicate HasPrefix(s: string, prefix: string) {
    |prefix| <= |s| && s[..|prefix|] == prefix
  }

  predicate HasSuffix(s: string, suffix: string) {
    |suffix| <= |s| && s[|s| - |suffix|..] == suffix
  }

  /** Two prefixes of one string: one is a prefix of the other. */
  lemma PrefixesNest(s: string, p: string, q: string)
    requires HasPrefix(s, p) && HasPrefix(s, q)
    ensures HasPrefix(p, q) || HasPrefix(q, p)
  {
    if |q| <= |p| {
      assert p[..|q|] == s[..|p|][..|q|] == s[..|q|];
    } else {
      assert q[..|p|] == s[..|q|][..|p|] == s[..|p|];
    }
  }

  /** The position of the first `c`, or the length of the string when there is none. */
  function IndexOf(s: string, c: char): (i: nat)
    ensures i <= |s|
  {
    if s == "" || s[0] == c then 0 else 1 + IndexOf(s[1..], c)
  }

  lemma {:induction false} FirstIndex(a: string, c: char, s: string)
    requires c !in a
    ensures IndexOf(a + [c] + s, c) == |a|
  {
    var x := a + [c] + s;
    if a != "" {
      assert x[0] == a[0] && a[0] in a && x[1..] == a[1..] + [c] + s;
      FirstIndex(a[1..], c, s);
    }
  }

  lemma {:induction false} NoIndex(a: string, c: char)
    requires c !in a
    ensures IndexOf(a, c) == |a|
  {
    if a != "" {
      assert a[0] in a;
      NoIndex(a[1..], c);
    }
  }

  lemma {:induction false} IndexIsFirst(s: string, c: char)
    ensures c !in s[..IndexOf(s, c)]
    ensures IndexOf(s, c) < |s| ==> s[IndexOf(s, c)] == c
  {
    if s != "" && s[0] != c {
      IndexIsFirst(s[1..], c);
      assert s[..IndexOf(s, c)] == [s[0]] + s[1..][..IndexOf(s[1..], c)];
    }
  }

  lemma SplitAt(a: string, x: string, b: string, y: string)
    requires a + x == b + y && |a| == |b|
    ensures a == b && x == y
  {
    assert a == (a + x)[..|a|] && b == (b + y)[..|b|];
    assert x == (a + x)[|a|..] && y == (b + y)[|b|..];
  }

  /** A string determines the parts before and after its first separator. */
  lemma SeparatorSplit(a: string, x: string, b: string, y: string, c: char)
    requires c !in a && c !in b && a + [c] + x == b + [c] + y
    ensures a == b && x == y
  {
    FirstIndex(a, c, x);
    FirstIndex(b, c, y);
    assert a + [c] + x == a + ([c] + x) && b + [c] + y == b + ([c] + y);
    SplitAt(a, [c] + x, b, [c] + y);
    SplitAt([c], x, [c], y);
  }

  lemma HeadsAgree(s: string, prefix: string)
    requires HasPrefix(s, prefix) && prefix != ""
    ensures s != "" && s[0] == prefix[0]
  {
    assert s[..|prefix|][0] == s[0];
  }

  /** The length of the longest prefix whose characters are all in the class. */
  function Run(s: string, charClass: char -> bool): (n: nat)
    ensures n <= |s|
  {
    if s == "" || !charClass(s[0]) then 0 else 1 + Run(s[1..], charClass)
  }

  lemma {:induction false} RunInClass(s: string, charClass: char -> bool)
    ensures forall c :: c in s[..Run(s, charClass)] ==> charClass(c)
    ensures Run(s, charClass) < |s| ==> !charClass(s[Run(s, charClass)])
  {
    if s != "" && charClass(s[0]) {
      RunInClass(s[1..], charClass);
      assert s[..Run(s, charClass)] == [s[0]] + s[1..][..Run(s[1..], charClass)];
    }
  }

  /** A run ends where the first character outside the class stands. */
  lemma {:induction false} RunEnds(a: string, s: string, charClass: char -> bool)
    requires forall c :: c in a ==> charClass(c)
    requires s == "" || !charClass(s[0])
    ensures Run(a + s, charClass) == |a|
  {
    if a != "" {
      assert (a + s)[1..] == a[1..] + s;
      assert a[0] in a;
      RunEnds(a[1..], s, charClass);
    }
  }

  /** A prefix inside the class is no longer than the run. */
  lemma {:induction false} RunCovers(s: string, prefix: string, charClass: char -> bool)
    requires HasPrefix(s, prefix) && forall c :: c in prefix ==> charClass(c)
    ensures |prefix| <= Run(s, charClass)
  {
    if prefix != "" {
      HeadsAgree(s, prefix);
      assert prefix[0] in prefix;
      assert s[1..][..|prefix| - 1] == prefix[1..];
      RunCovers(s[1..], prefix[1..], charClass);
    }
  }

  /** The parts of a string that is put together around a separator. */
  lemma Separated(s: string, a: string, c: char, t: string)
    requires s == a + ([c] + t)
    ensures |a| < |s| && s[..|a|] == a && s[|a|] == c && s[|a| + 1..] == t
  {
  }

  lemma Regroup(a: string, b: string, c: string, d: string)
    ensures (a + b + c) + d == a + (b + (c + d))
  {
  }

  lemma StartsWith(a: string, b: string)
    ensures HasPrefix(a + b, a)
  {
  }

  // ---------------------------------------------------------------- unanchored search

  /** The result of the first position at which there is one. */
  function FindFirst<M(==)>(s: string, at: string -> Option<M>): Option<M> {
    if at(s).Some? || s == "" then at(s) else FindFirst(s[1..], at)
  }

  predicate FirstAt<M(==)>(s: string, at: string -> Option<M>, i: nat, m: M) {
    i <= |s| && at(s[i..]) == Some(m) && forall j :: 0 <= j < i ==> at(s[j..]).None?
  }

  lemma {:induction false} FindFirstIff<M>(s: string, at: string -> Option<M>, m: M)
    ensures FindFirst(s, at) == Some(m) <==> exists i: nat :: FirstAt(s, at, i, m)
  {
    assert s[0..] == s;
    if at(s).Some? {
      assert FirstAt(s, at, 0, at(s).value);
    } else if s != "" {
      FindFirstIff(s[1..], at, m);
      assert forall i :: 0 < i <= |s| ==> s[i..] == s[1..][i - 1..];
      if i: nat :| FirstAt(s[1..], at, i, m) {
        assert FirstAt(s, at, i + 1, m);
      }
      if i: nat :| FirstAt(s, at, i, m) {
        assert FirstAt(s[1..], at, i - 1, m);
      }
    }
  }

  lemma {:induction false} FindFirstNone<M>(s: string, at: string -> Option<M>)
    ensures FindFirst(s, at).None? <==> forall i :: 0 <= i <= |s| ==> at(s[i..]).None?
  {
    assert s[0..] == s;
    if s != "" {
      FindFirstNone(s[1..], at);
      assert forall i :: 0 < i <= |s| ==> s[i..] == s[1..][i - 1..];
      assert forall i :: 0 <= i < |s| ==> s[1..][i..] == s[i + 1..];
    }
  }
}
