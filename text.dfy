/** String helpers with the meaning the dashboard's two languages give them:
    Python's `str.strip`/`lstrip`/`rstrip`/`split(sep, 1)`/`upper`, JavaScript's
    `trim`/`toLowerCase`/`includes`, and substring and prefix tests. */
module Text {

  /** The character classes the dashboard strips. */
  datatype CharClass =
    | PyWhitespace   // what Python's `str.isspace()` accepts: `str.strip()` with no argument
    | JsWhitespace   // what JavaScript's `String.prototype.trim` removes
    | Only(c: char)  // one given character, as in `s.strip('"')` or `s.lstrip('/')`

  predicate InClass(c: char, cs: CharClass) {
    match cs
    case PyWhitespace =>
      c == ' ' || '\t' <= c <= '\r' || '\U{1C}' <= c <= '\U{1F}' || c == '\U{85}' || c == '\U{A0}'
      || c == '\U{1680}' || '\U{2000}' <= c <= '\U{200A}' || c == '\U{2028}' || c == '\U{2029}'
      || c == '\U{202F}' || c == '\U{205F}' || c == '\U{3000}'
    case JsWhitespace =>
      c == ' ' || '\t' <= c <= '\r' || c == '\U{A0}'
      || c == '\U{1680}' || '\U{2000}' <= c <= '\U{200A}' || c == '\U{2028}' || c == '\U{2029}'
      || c == '\U{202F}' || c == '\U{205F}' || c == '\U{3000}' || c == '\U{FEFF}'
    case Only(d) => c == d
  }

  predicate StartsWith(s: string, prefix: string) {
    |prefix| <= |s| && s[..|prefix|] == prefix
  }

  predicate EndsWith(s: string, suffix: string) {
    |suffix| <= |s| && s[|s| - |suffix|..] == suffix
  }

  /** `sub` occurs in `s` starting at index `i`. */
  predicate OccursAt(s: string, sub: string, i: int) {
    0 <= i <= |s| - |sub| && s[i..i + |sub|] == sub
  }

  /** `sub in s` in Python, `s.includes(sub)` in JavaScript. */
  predicate Contains(s: string, sub: string) {
    exists i :: 0 <= i <= |s| - |sub| && OccursAt(s, sub, i)
  }

  /** Every character of `s` is in `cs`. */
  predicate AllIn(s: string, cs: CharClass) {
    forall i :: 0 <= i < |s| ==> InClass(s[i], cs)
  }

  /** Removes the longest prefix made of characters in `cs` (`s.lstrip(cs)`). */
  function LStrip(s: string, cs: CharClass): (r: string)
    ensures |r| <= |s|
    ensures r == [] || !InClass(r[0], cs)
  {
    if |s| > 0 && InClass(s[0], cs) then LStrip(s[1..], cs) else s
  }

  /** Removes the longest suffix made of characters in `cs` (`s.rstrip(cs)`). */
  function RStrip(s: string, cs: CharClass): (r: string)
    ensures |r| <= |s|
    ensures r == [] || !InClass(r[|r| - 1], cs)
  {
    if |s| > 0 && InClass(s[|s| - 1], cs) then RStrip(s[..|s| - 1], cs) else s
  }

  /** `lstrip` keeps a suffix. */
  lemma {:induction false} LStripSuffix(s: string, cs: CharClass)
    ensures EndsWith(s, LStrip(s, cs))
  {
    if |s| > 0 && InClass(s[0], cs) {
      var r := LStrip(s[1..], cs);
      LStripSuffix(s[1..], cs);
      assert s[1..][|s| - 1 - |r|..] == s[|s| - |r|..];
    }
  }

  /** `rstrip` keeps a prefix. */
  lemma {:induction false} RStripPrefix(s: string, cs: CharClass)
    ensures StartsWith(s, RStrip(s, cs))
  {
    if |s| > 0 && InClass(s[|s| - 1], cs) {
      var r := RStrip(s[..|s| - 1], cs);
      RStripPrefix(s[..|s| - 1], cs);
      assert s[..|s| - 1][..|r|] == s[..|r|];
    }
  }

  /** What `lstrip` removes is made of characters in `cs` only. */
  lemma {:induction false} LStripRemovesClass(s: string, cs: CharClass)
    ensures AllIn(s[..|s| - |LStrip(s, cs)|], cs)
  {
    if |s| > 0 && InClass(s[0], cs) {
      var r := LStrip(s[1..], cs);
      LStripRemovesClass(s[1..], cs);
      assert s[1..][..|s| - 1 - |r|] == s[1..|s| - |r|];
    }
  }

  /** What `rstrip` removes is made of characters in `cs` only. */
  lemma {:induction false} RStripRemovesClass(s: string, cs: CharClass)
    ensures AllIn(s[|RStrip(s, cs)|..], cs)
  {
    if |s| > 0 && InClass(s[|s| - 1], cs) {
      var r := RStrip(s[..|s| - 1], cs);
      RStripRemovesClass(s[..|s| - 1], cs);
      assert s[|r|..] == s[..|s| - 1][|r|..] + [s[|s| - 1]];
    }
  }

  /** Removes both the leading and the trailing characters in `cs` (`s.strip(cs)`). */
  function Strip(s: string, cs: CharClass): (r: string)
    ensures r != [] ==> !InClass(r[0], cs) && !InClass(r[|r| - 1], cs)
  {
    var l := LStrip(s, cs);
    var r := RStrip(l, cs);
    RStripPrefix(l, cs);
    assert r != [] ==> r[0] == l[0];
    r
  }

  /** The strip of `s` is a substring of `s`. */
  lemma StripInfix(s: string, cs: CharClass)
    ensures Contains(s, Strip(s, cs))
  {
    var l := LStrip(s, cs);
    LStripSuffix(s, cs);
    RStripPrefix(l, cs);
    StripOccurs(s, l, RStrip(l, cs), |s| - |l|);
  }

  /** A string strips to nothing exactly when all its characters are in `cs`. */
  lemma StripEmptyIff(s: string, cs: CharClass)
    ensures Strip(s, cs) == [] <==> AllIn(s, cs)
  {
    var l := LStrip(s, cs);
    if RStrip(l, cs) == [] {
      StripToNothing(s, cs, l);
    } else {
      StripKeepsSome(s, cs, l, RStrip(l, cs));
    }
  }

  lemma StripToNothing(s: string, cs: CharClass, l: string)
    requires l == LStrip(s, cs) && RStrip(l, cs) == []
    ensures AllIn(s, cs)
  {
    var a := |s| - |l|;
    LStripSuffix(s, cs);
    LStripRemovesClass(s, cs);
    RStripRemovesClass(l, cs);
    assert l[|RStrip(l, cs)|..] == l;
    assert s == s[..a] + l;
    StripEmptyAll(s, cs, s[..a], l);
  }

  lemma StripKeepsSome(s: string, cs: CharClass, l: string, r: string)
    requires l == LStrip(s, cs) && r == RStrip(l, cs) && r != []
    ensures !AllIn(s, cs)
  {
    var a := |s| - |l|;
    LStripSuffix(s, cs);
    RStripPrefix(l, cs);
    assert s[a] == l[0] == r[0];
  }

  lemma StripEmptyAll(s: string, cs: CharClass, p: string, l: string)
    requires s == p + l && AllIn(p, cs) && AllIn(l, cs)
    ensures AllIn(s, cs)
  {
    AllInConcat(p, l, cs);
  }

  /** A prefix of a suffix of `s` occurs in `s` where the suffix begins. */
  lemma StripOccurs(s: string, l: string, r: string, a: int)
    requires 0 <= a <= |s| && l == s[a..] && StartsWith(l, r)
    ensures Contains(s, r)
  {
    assert s[a..a + |r|] == l[..|r|];
    assert OccursAt(s, r, a);
  }

  lemma AllInConcat(x: string, y: string, cs: CharClass)
    ensures AllIn(x + y, cs) <==> AllIn(x, cs) && AllIn(y, cs)
  {
    if AllIn(x, cs) && AllIn(y, cs) {
      forall i | 0 <= i < |x + y| ensures InClass((x + y)[i], cs) {
        if i >= |x| { assert (x + y)[i] == y[i - |x|]; }
      }
    }
    if AllIn(x + y, cs) {
      forall i | 0 <= i < |x| ensures InClass(x[i], cs) {
        assert (x + y)[i] == x[i];
      }
      forall i | 0 <= i < |y| ensures InClass(y[i], cs) {
        assert (x + y)[|x| + i] == y[i];
      }
    }
  }

  /** A string that starts and ends outside `cs` is its own strip. */
  lemma StripFixpoint(s: string, cs: CharClass)
    requires s == [] || (!InClass(s[0], cs) && !InClass(s[|s| - 1], cs))
    ensures Strip(s, cs) == s
  {
  }

  /** Stripping twice is stripping once. */
  lemma StripIdempotent(s: string, cs: CharClass)
    ensures Strip(Strip(s, cs), cs) == Strip(s, cs)
  {
    StripFixpoint(Strip(s, cs), cs);
  }

  /** A string starts with each of its concatenation prefixes. */
  lemma PrefixOfConcat(a: string, b: string)
    ensures StartsWith(a + b, a)
  {
    assert (a + b)[..|a|] == a;
  }

  /** The empty string is a substring of every string. */
  lemma ContainsEmpty(s: string)
    ensures Contains(s, "")
  {
    assert OccursAt(s, "", 0);
  }

  /** A string is a substring of itself. */
  lemma ContainsSelf(s: string)
    ensures Contains(s, s)
  {
    assert OccursAt(s, s, 0);
  }

  /** The first index of `c` in `s`, or `|s|` when `c` does not occur. */
  function IndexOf(s: string, c: char): (k: nat)
    ensures k <= |s|
    ensures k < |s| <==> c in s
    ensures k < |s| ==> s[k] == c
    ensures c !in s[..k]
  {
    if |s| == 0 then 0
    else if s[0] == c then 0
    else
      var k := IndexOf(s[1..], c);
      assert s[..k + 1] == [s[0]] + s[1..][..k];
      k + 1
  }

  /** The part before the first `c` (`s.split(c, 1)[0]`). */
  function Before(s: string, c: char): (r: string)
    ensures c !in r
    ensures StartsWith(s, r)
  {
    s[..IndexOf(s, c)]
  }

  /** The part after the first `c` (`s.split(c, 1)[1]`). */
  function After(s: string, c: char): (r: string)
    requires c in s
    ensures s == Before(s, c) + [c] + r
  {
    var k := IndexOf(s, c);
    assert s == s[..k] + [c] + s[k + 1..];
    s[k + 1..]
  }

  function LowerChar(c: char): char {
    if 'A' <= c <= 'Z' then (c as int + 32) as char else c
  }

  function UpperChar(c: char): char {
    if 'a' <= c <= 'z' then (c as int - 32) as char else c
  }

  /** `s.toLowerCase()`, on the ASCII letters. */
  function ToLower(s: string): (r: string)
    ensures |r| == |s|
    ensures forall i :: 0 <= i < |s| ==> r[i] == LowerChar(s[i])
  {
    seq(|s|, i requires 0 <= i < |s| => LowerChar(s[i]))
  }

  /** `s.upper()`, on the ASCII letters. */
  function ToUpper(s: string): (r: string)
    ensures |r| == |s|
    ensures forall i :: 0 <= i < |s| ==> r[i] == UpperChar(s[i])
  {
    seq(|s|, i requires 0 <= i < |s| => UpperChar(s[i]))
  }
}
