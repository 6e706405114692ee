/**
 * String helpers used by the error handlers: ASCII case mapping (the stand-in for
 * `toUpperCase`/`toLowerCase`/`equalsIgnoreCase`), Java's `Character.isWhitespace`,
 * Spring's `StringUtils.hasText`, `String.join`, `String.compareTo` and Apache's
 * `StringUtils.containsIgnoreCase`.
 */
module Text {

  function UpperChar(c: char): (u: char)
    ensures 'a' <= c <= 'z' ==> 'A' <= u <= 'Z' && u as int == c as int - 32
    ensures !('a' <= c <= 'z') ==> u == c
  {
    if 'a' <= c <= 'z' then (c as int - 32) as char else c
  }

  function LowerChar(c: char): (l: char)
    ensures 'A' <= c <= 'Z' ==> 'a' <= l <= 'z' && l as int == c as int + 32
    ensures !('A' <= c <= 'Z') ==> l == c
  {
    if 'A' <= c <= 'Z' then (c as int + 32) as char else c
  }

  /** Upper-cases every ASCII letter and leaves every other character alone. */
  function ToUpper(s: string): string {
    seq(|s|, i requires 0 <= i < |s| => UpperChar(s[i]))
  }

  /** Lower-cases every ASCII letter and leaves every other character alone. */
  function ToLower(s: string): string {
    seq(|s|, i requires 0 <= i < |s| => LowerChar(s[i]))
  }

  /** `String.equalsIgnoreCase` restricted to ASCII case folding. */
  predicate EqualsIgnoreCase(a: string, b: string) {
    ToUpper(a) == ToUpper(b)
  }

  /** Two characters agree after lower-casing exactly when they agree after upper-casing. */
  lemma CharFoldsAgree(x: char, y: char)
    ensures LowerChar(x) == LowerChar(y) <==> UpperChar(x) == UpperChar(y)
  {
  }

  /** Comparing lower-cased strings decides the same thing as `EqualsIgnoreCase`. */
  lemma {:induction false} LowerEqualIffEqualsIgnoreCase(a: string, b: string)
    ensures ToLower(a) == ToLower(b) <==> EqualsIgnoreCase(a, b)
  {
    if |a| == |b| {
      forall i | 0 <= i < |a|
        ensures LowerChar(a[i]) == LowerChar(b[i]) <==> UpperChar(a[i]) == UpperChar(b[i])
      {
        CharFoldsAgree(a[i], b[i]);
      }
      if ToUpper(a) == ToUpper(b) {
        assert forall i :: 0 <= i < |a| ==> ToLower(a)[i] == ToLower(b)[i] by {
          forall i | 0 <= i < |a| ensures ToLower(a)[i] == ToLower(b)[i] {
            assert ToUpper(a)[i] == ToUpper(b)[i];
          }
        }
      }
      if ToLower(a) == ToLower(b) {
        assert forall i :: 0 <= i < |a| ==> ToUpper(a)[i] == ToUpper(b)[i] by {
          forall i | 0 <= i < |a| ensures ToUpper(a)[i] == ToUpper(b)[i] {
            assert ToLower(a)[i] == ToLower(b)[i];
          }
        }
      }
    } else {
      assert |ToLower(a)| != |ToLower(b)|;
      assert |ToUpper(a)| != |ToUpper(b)|;
    }
  }

  /**
   * Java's `Character.isWhitespace`: the Unicode space, line and paragraph separators
   * other than the three no-break spaces, plus the nine listed control characters.
   */
  predicate IsWhitespace(c: char) {
    || c == ' ' || c == '\t' || c == '\n' || c == '\U{B}' || c == '\U{C}' || c == '\r'
    || c == '\U{1C}' || c == '\U{1D}' || c == '\U{1E}' || c == '\U{1F}'
    || c == '\U{1680}' || ('\U{2000}' <= c <= '\U{2006}') || ('\U{2008}' <= c <= '\U{200A}')
    || c == '\U{2028}' || c == '\U{2029}' || c == '\U{205F}' || c == '\U{3000}'
  }

  /** Spring's `StringUtils.hasText`: some character is not whitespace. */
  function HasText(s: string): (b: bool)
    ensures b <==> exists i :: 0 <= i < |s| && !IsWhitespace(s[i])
  {
    if s == [] then false
    else if !IsWhitespace(s[0]) then true
    else
      var rest := HasText(s[1..]);
      assert forall i :: 1 <= i < |s| ==> s[i] == s[1..][i - 1];
      rest
  }

  /** `String.join(sep, parts)` and `Collectors.joining(sep)`. */
  function Join(sep: string, parts: seq<string>): string
  {
    if parts == [] then ""
    else if |parts| == 1 then parts[0]
    else parts[0] + sep + Join(sep, parts[1..])
  }

  /** Splits at every occurrence of `c`; the pieces never contain `c`. */
  function Split(s: string, c: char): (r: seq<string>)
    ensures |r| >= 1
    ensures forall k :: 0 <= k < |r| ==> c !in r[k]
  {
    if s == [] then [""]
    else
      var rest := Split(s[1..], c);
      if s[0] == c then [""] + rest
      else [[s[0]] + rest[0]] + rest[1..]
  }

  lemma {:induction false} SplitPrefix(p: string, s: string, c: char)
    requires c !in p
    ensures Split(p + s, c) == [p + Split(s, c)[0]] + Split(s, c)[1..]
    decreases |p|
  {
    if p == [] {
      var r := Split(s, c);
      assert p + s == s;
      assert p + r[0] == r[0];
      assert [r[0]] + r[1..] == r;
    } else {
      assert (p + s)[1..] == p[1..] + s;
      SplitPrefix(p[1..], s, c);
      assert [p[0]] + (p[1..] + Split(s, c)[0]) == p + Split(s, c)[0];
    }
  }

  /** `Split` undoes `Join` with a one-character separator that no part contains. */
  lemma {:induction false} SplitJoin(parts: seq<string>, c: char)
    requires parts != []
    requires forall k :: 0 <= k < |parts| ==> c !in parts[k]
    ensures Split(Join([c], parts), c) == parts
    decreases |parts|
  {
    if |parts| == 1 {
      SplitPrefix(parts[0], "", c);
      assert parts[0] + "" == parts[0];
    } else {
      var tail := Join([c], parts[1..]);
      SplitJoin(parts[1..], c);
      assert Join([c], parts) == parts[0] + ([c] + tail);
      SplitPrefix(parts[0], [c] + tail, c);
      assert ([c] + tail)[1..] == tail;
      assert Split([c] + tail, c) == [""] + parts[1..];
      assert parts[0] + "" == parts[0];
      assert [parts[0]] + parts[1..] == parts;
    }
  }

  /**
   * `String.compareTo(a, b) <= 0`: lexicographic order on characters, a proper
   * prefix coming first.
   */
  predicate StrLe(a: string, b: string) {
    if a == [] then true
    else if b == [] then false
    else if a[0] != b[0] then a[0] < b[0]
    else StrLe(a[1..], b[1..])
  }

  lemma {:induction false} StrLeReflexive(a: string)
    ensures StrLe(a, a)
    decreases |a|
  {
    if a != [] { StrLeReflexive(a[1..]); }
  }

  lemma {:induction false} StrLeTotal(a: string, b: string)
    ensures StrLe(a, b) || StrLe(b, a)
    decreases |a|
  {
    if a != [] && b != [] && a[0] == b[0] { StrLeTotal(a[1..], b[1..]); }
  }

  lemma {:induction false} StrLeAntisymmetric(a: string, b: string)
    requires StrLe(a, b) && StrLe(b, a)
    ensures a == b
    decreases |a|
  {
    if a != [] {
      StrLeAntisymmetric(a[1..], b[1..]);
      assert a == [a[0]] + a[1..];
      assert b == [b[0]] + b[1..];
    }
  }

  lemma {:induction false} StrLeTransitive(a: string, b: string, c: string)
    requires StrLe(a, b) && StrLe(b, c)
    ensures StrLe(a, c)
    decreases |a|
  {
    if a != [] && b != [] && c != [] && a[0] == b[0] && b[0] == c[0] {
      StrLeTransitive(a[1..], b[1..], c[1..]);
    }
  }

  /** The case-insensitive comparison Apache's `regionMatches(…, true, …)` makes at offset `i`. */
  predicate MatchesAt(s: string, sub: string, i: int)
    requires 0 <= i <= |s| - |sub|
  {
    EqualsIgnoreCase(s[i..i + |sub|], sub)
  }

  /** A window of `s` past its first character is a window of `s[1..]`. */
  lemma MatchesShift(s: string, sub: string)
    requires |s| >= |sub| && |s| >= 1
    ensures (exists i :: 0 <= i <= |s| - |sub| && MatchesAt(s, sub, i))
        <==> MatchesAt(s, sub, 0) || exists j :: 0 <= j <= |s| - 1 - |sub| && MatchesAt(s[1..], sub, j)
  {
    forall j | 0 <= j <= |s| - 1 - |sub|
      ensures MatchesAt(s, sub, j + 1) <==> MatchesAt(s[1..], sub, j)
    {
      var w, w' := s[j + 1..j + 1 + |sub|], s[1..][j..j + |sub|];
      assert |w| == |w'| == |sub|;
      assert forall k :: 0 <= k < |sub| ==> w[k] == s[j + 1 + k] == w'[k];
      assert w == w';
    }
    if exists i :: 0 <= i <= |s| - |sub| && MatchesAt(s, sub, i) {
      var i :| 0 <= i <= |s| - |sub| && MatchesAt(s, sub, i);
      if i > 0 {
        assert MatchesAt(s[1..], sub, i - 1);
      }
    }
    if exists j :: 0 <= j <= |s| - 1 - |sub| && MatchesAt(s[1..], sub, j) {
      var j :| 0 <= j <= |s| - 1 - |sub| && MatchesAt(s[1..], sub, j);
      assert MatchesAt(s, sub, j + 1);
    }
  }

  /** Apache's `StringUtils.containsIgnoreCase`: some window of `s` equals `sub` ignoring case. */
  function ContainsIgnoreCase(s: string, sub: string): (b: bool)
    ensures b <==> exists i :: 0 <= i <= |s| - |sub| && MatchesAt(s, sub, i)
    decreases |s|
  {
    if |s| < |sub| then false
    else if MatchesAt(s, sub, 0) then true
    else
      var rest := ContainsIgnoreCase(s[1..], sub);
      MatchesShift(s, sub);
      rest
  }
}
