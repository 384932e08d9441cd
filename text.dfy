/** The JavaScript string operations the core relies on: `trim`, ASCII
    `toUpperCase`/`toLowerCase`, `split` and `join` on a separator, `replace`
    of every occurrence of a character, `includes`, decimal rendering of a
    number, `localeCompare` on plain names, and the two regular expressions
    the validators use (`^[A-Z]{3}$` and the e-mail pattern). */
module Text {
  import opened Wrappers

  /** The characters JavaScript's `trim` and the regex class `\s` treat as
      white space (ECMAScript WhiteSpace and LineTerminator). */
  predicate IsWhitespace(c: char)
  {
    || ('\t' <= c <= '\r') || c == ' ' || c == '\U{00A0}' || c == '\U{1680}'
    || ('\U{2000}' <= c <= '\U{200A}') || c == '\U{2028}' || c == '\U{2029}'
    || c == '\U{202F}' || c == '\U{205F}' || c == '\U{3000}' || c == '\U{FEFF}'
  }

  /** The first position at or after `i` that is not white space. */
  function TrimStartAt(s: string, i: nat): (j: nat)
    requires i <= |s|
    ensures i <= j <= |s|
    ensures forall k :: i <= k < j ==> IsWhitespace(s[k])
    ensures j == |s| || !IsWhitespace(s[j])
    decreases |s| - i
  {
    if i == |s| || !IsWhitespace(s[i]) then i else TrimStartAt(s, i + 1)
  }

  /** The end of the last character before `j`, and not before `lo`, that is
      not white space. */
  function TrimEndAt(s: string, lo: nat, j: nat): (e: nat)
    requires lo <= j <= |s|
    ensures lo <= e <= j
    ensures forall k :: e <= k < j ==> IsWhitespace(s[k])
    ensures e == lo || !IsWhitespace(s[e - 1])
    decreases j
  {
    if j == lo || !IsWhitespace(s[j - 1]) then j else TrimEndAt(s, lo, j - 1)
  }

  /** `s.trim()`: the longest slice of `s` that neither starts nor ends with
      white space, obtained by dropping only white space on either side. */
  function Trim(s: string): (r: string)
    ensures exists i :: TrimmedAt(s, i, r)
    ensures r == [] || (!IsWhitespace(r[0]) && !IsWhitespace(r[|r| - 1]))
  {
    var i := TrimStartAt(s, 0);
    var e := TrimEndAt(s, i, |s|);
    assert TrimmedAt(s, i, s[i..e]);
    s[i..e]
  }

  /** `r` is the slice of `s` starting at `i`, with only white space around it. */
  ghost predicate TrimmedAt(s: string, i: int, r: string)
  {
    && 0 <= i <= |s| - |r| && r == s[i..i + |r|]
    && (forall k :: 0 <= k < i ==> IsWhitespace(s[k]))
    && (forall k :: i + |r| <= k < |s| ==> IsWhitespace(s[k]))
  }

  /** `!s.trim()`: the string is empty once trimmed. */
  predicate IsBlank(s: string)
  {
    Trim(s) == []
  }

  /** A string is blank exactly when every character in it is white space. */
  lemma BlankIffAllWhitespace(s: string)
    ensures IsBlank(s) <==> forall k :: 0 <= k < |s| ==> IsWhitespace(s[k])
  {
    var r := Trim(s);
    if !IsBlank(s) {
      var i :| TrimmedAt(s, i, r);
      assert s[i] == r[0];
    }
  }

  predicate IsAsciiLower(c: char) { 'a' <= c <= 'z' }
  predicate IsAsciiUpper(c: char) { 'A' <= c <= 'Z' }

  function UpperChar(c: char): char
  {
    if IsAsciiLower(c) then (c as int - 32) as char else c
  }

  function LowerChar(c: char): char
  {
    if IsAsciiUpper(c) then (c as int + 32) as char else c
  }

  /** `s.toUpperCase()` on the ASCII letters: same length, no lower-case ASCII
      letter left, and every other character untouched. */
  function ToUpper(s: string): (r: string)
    ensures |r| == |s|
    ensures forall k :: 0 <= k < |r| ==> !IsAsciiLower(r[k])
    ensures forall k :: 0 <= k < |s| && !IsAsciiLower(s[k]) ==> r[k] == s[k]
    ensures forall k :: 0 <= k < |s| && IsAsciiLower(s[k]) ==> IsAsciiUpper(r[k])
  {
    if s == [] then [] else [UpperChar(s[0])] + ToUpper(s[1..])
  }

  /** Upper-casing twice is upper-casing once. */
  lemma UpperIdempotent(s: string)
    ensures ToUpper(ToUpper(s)) == ToUpper(s)
  {
    var u := ToUpper(s);
    assert forall k :: 0 <= k < |u| ==> ToUpper(u)[k] == u[k];
  }

  /** `s.toLowerCase()` on the ASCII letters. */
  function ToLower(s: string): (r: string)
    ensures |r| == |s|
    ensures forall k :: 0 <= k < |r| ==> !IsAsciiUpper(r[k])
    ensures forall k :: 0 <= k < |s| && !IsAsciiUpper(s[k]) ==> r[k] == s[k]
    ensures forall k :: 0 <= k < |s| && IsAsciiUpper(s[k]) ==> IsAsciiLower(r[k])
  {
    if s == [] then [] else [LowerChar(s[0])] + ToLower(s[1..])
  }

  /** The regular expression `^[A-Z]{3}$`. */
  predicate MatchesThreeUpper(s: string)
  {
    |s| == 3 && forall k :: 0 <= k < 3 ==> IsAsciiUpper(s[k])
  }

  /** The IATA-code check every form applies: `/^[A-Z]{3}$/.test(s.toUpperCase())`. */
  predicate IsIataCode(s: string)
  {
    MatchesThreeUpper(ToUpper(s))
  }

  /** A code passes exactly when it is three ASCII letters, in either case. */
  lemma IataCodeIff(s: string)
    ensures IsIataCode(s) <==>
      |s| == 3 && forall k :: 0 <= k < 3 ==> IsAsciiUpper(s[k]) || IsAsciiLower(s[k])
  {
    var u := ToUpper(s);
    if IsIataCode(s) {
      forall k | 0 <= k < 3 ensures IsAsciiUpper(s[k]) || IsAsciiLower(s[k]) {
        if !IsAsciiLower(s[k]) {
          assert u[k] == s[k];
        }
      }
    }
  }

  /** The first index of `c` in `s` (`s.indexOf(c)`, absent for -1). */
  function IndexOf(s: string, c: char): (r: Option<nat>)
    ensures r.None? <==> c !in s
    ensures r.Some? ==> r.value < |s| && s[r.value] == c && c !in s[..r.value]
  {
    if s == [] then None
    else if s[0] == c then Some(0)
    else
      match IndexOf(s[1..], c)
      case None => None
      case Some(i) =>
        assert s[1..][..i] == s[1..i + 1];
        Some(i + 1)
  }

  /** `s.split(c)`: the maximal pieces between occurrences of `c`; never empty. */
  function Split(s: string, c: char): (r: seq<string>)
    ensures |r| >= 1
    ensures forall k :: 0 <= k < |r| ==> c !in r[k]
    decreases |s|
  {
    match IndexOf(s, c)
    case None => [s]
    case Some(i) => [s[..i]] + Split(s[i + 1..], c)
  }

  /** `parts.join(sep)`. */
  function Join(parts: seq<string>, sep: string): (r: string)
  {
    if parts == [] then []
    else if |parts| == 1 then parts[0]
    else parts[0] + sep + Join(parts[1..], sep)
  }

  /** Splitting and then joining on the same character gives the string back. */
  lemma {:induction false} JoinSplit(s: string, c: char)
    ensures Join(Split(s, c), [c]) == s
    decreases |s|
  {
    match IndexOf(s, c)
    case None =>
    case Some(i) =>
      var rest := s[i + 1..];
      var tail := Split(rest, c);
      JoinSplit(rest, c);
      JoinCons(s[..i], tail, [c]);
      assert s == s[..i] + [c] + rest;
  }

  lemma JoinCons(head: string, tail: seq<string>, sep: string)
    requires |tail| >= 1
    ensures Join([head] + tail, sep) == head + sep + Join(tail, sep)
  {
    assert ([head] + tail)[1..] == tail;
  }

  /** Joining pieces that do not contain `c` and splitting again gives the pieces back. */
  lemma {:induction false} SplitJoin(parts: seq<string>, c: char)
    requires |parts| >= 1
    requires forall k :: 0 <= k < |parts| ==> c !in parts[k]
    ensures Split(Join(parts, [c]), c) == parts
  {
    if |parts| == 1 {
      assert IndexOf(parts[0], c).None?;
    } else {
      var head := parts[0];
      var tail := Join(parts[1..], [c]);
      SplitJoin(parts[1..], c);
      var s := head + [c] + tail;
      assert s[..|head|] == head;
      assert s[|head|] == c;
      assert IndexOf(s, c) == Some(|head|);
      assert s[|head| + 1..] == tail;
    }
  }

  /** After a fixed prefix, `a.b.<date without '-'>` splits back into its
      three parts when none of them contains a `.`. */
  lemma DottedRoundTrip(prefix: string, a: string, b: string, date: string)
    requires '.' !in a && '.' !in b && '.' !in date
    ensures var s := prefix + Join([a, b, RemoveChar(date, '-')], ".");
      && s[..|prefix|] == prefix
      && Split(s[|prefix|..], '.') == [a, b, RemoveChar(date, '-')]
  {
    var parts := [a, b, RemoveChar(date, '-')];
    RemoveCharAvoids(date, '-', '.');
    var s := prefix + Join(parts, ".");
    assert s[|prefix|..] == Join(parts, ['.']);
    SplitJoin(parts, '.');
  }

  /** Removing one character keeps every other character out. */
  lemma RemoveCharAvoids(s: string, c: char, x: char)
    requires x != c && x !in s
    ensures x !in RemoveChar(s, c)
  {
    assert multiset(RemoveChar(s, c))[x] == multiset(s)[x] == 0;
  }

  /** A character in none of the pieces and not in the separator is not in their join. */
  lemma {:induction false} JoinAvoids(parts: seq<string>, sep: string, c: char)
    requires c !in sep
    requires forall k :: 0 <= k < |parts| ==> c !in parts[k]
    ensures c !in Join(parts, sep)
  {
    if |parts| > 1 {
      JoinAvoids(parts[1..], sep, c);
    }
  }

  /** Upper-casing adds no character other than an ASCII upper-case letter. */
  lemma UpperAvoids(s: string, c: char)
    requires c !in s && !IsAsciiUpper(c)
    ensures c !in ToUpper(s)
  {
    var u := ToUpper(s);
    forall k | 0 <= k < |u| ensures u[k] != c {
      if IsAsciiLower(s[k]) {
        assert IsAsciiUpper(u[k]);
      }
    }
  }

  /** `s.replace(/c/g, '')`: every `c` removed, everything else kept in order. */
  function RemoveChar(s: string, c: char): (r: string)
    ensures c !in r
    ensures forall x :: x != c ==> multiset(r)[x] == multiset(s)[x]
    ensures c !in s ==> r == s
  {
    if s == [] then []
    else
      assert s == [s[0]] + s[1..];
      (if s[0] == c then [] else [s[0]]) + RemoveChar(s[1..], c)
  }

  /** `s.includes(sub)`. */
  predicate Contains(s: string, sub: string)
  {
    exists i :: 0 <= i <= |s| - |sub| && OccursAt(s, sub, i)
  }

  predicate OccursAt(s: string, sub: string, i: int)
  {
    0 <= i <= |s| - |sub| && s[i..i + |sub|] == sub
  }

  predicate IsDigit(c: char) { '0' <= c <= '9' }

  predicate AllDigits(s: string)
  {
    forall k :: 0 <= k < |s| ==> IsDigit(s[k])
  }

  /** The value of a run of decimal digits (`parseInt` of a `\d+` match). */
  function DigitsValue(s: string): (r: nat)
    requires AllDigits(s)
  {
    if s == [] then 0
    else DigitsValue(s[..|s| - 1]) * 10 + (s[|s| - 1] as int - '0' as int)
  }

  function DigitChar(d: nat): char
    requires d < 10
  {
    ('0' as int + d) as char
  }

  /** `s.length`: JavaScript counts UTF-16 code units, so a character above
      U+FFFF (a surrogate pair) counts twice. */
  function JsLength(s: string): (n: nat)
    ensures |s| <= n <= 2 * |s|
    ensures (forall k :: 0 <= k < |s| ==> s[k] as int <= 0xFFFF) ==> n == |s|
  {
    if s == [] then 0
    else JsLength(s[..|s| - 1]) + (if s[|s| - 1] as int > 0xFFFF then 2 else 1)
  }

  /** `String(n)` for a non-negative integer: decimal digits, no leading zero. */
  function NatToString(n: nat): (r: string)
    ensures |r| >= 1 && AllDigits(r)
    ensures |r| > 1 ==> r[0] != '0'
  {
    if n < 10 then [DigitChar(n)]
    else NatToString(n / 10) + [DigitChar(n % 10)]
  }

  /** Rendering a number and reading it back gives the number. */
  lemma {:induction false} NatToStringRoundTrip(n: nat)
    ensures DigitsValue(NatToString(n)) == n
  {
    if n >= 10 {
      NatToStringRoundTrip(n / 10);
      var s := NatToString(n);
      assert s[..|s| - 1] == NatToString(n / 10);
    }
  }

  /** Two different numbers never render to the same string. */
  lemma NatToStringInjective(m: nat, n: nat)
    requires NatToString(m) == NatToString(n)
    ensures m == n
  {
    NatToStringRoundTrip(m);
    NatToStringRoundTrip(n);
  }

  /** Code-unit lexicographic order: `a` is a prefix of `b` or is smaller at
      the first difference. */
  predicate LexLe(a: string, b: string)
  {
    if a == [] then true
    else if b == [] then false
    else if a[0] != b[0] then a[0] < b[0]
    else LexLe(a[1..], b[1..])
  }

  lemma {:induction false} LexLeTotal(a: string, b: string)
    ensures LexLe(a, b) || LexLe(b, a)
  {
    if a != [] && b != [] && a[0] == b[0] {
      LexLeTotal(a[1..], b[1..]);
    }
  }

  lemma {:induction false} LexLeTransitive(a: string, b: string, c: string)
    requires LexLe(a, b) && LexLe(b, c)
    ensures LexLe(a, c)
  {
    if a != [] && b != [] && c != [] && a[0] == b[0] && b[0] == c[0] {
      LexLeTransitive(a[1..], b[1..], c[1..]);
    }
  }

  /** A common prefix does not change the order. */
  lemma {:induction false} LexLeCommonPrefix(p: string, a: string, b: string)
    requires LexLe(a, b)
    ensures LexLe(p + a, p + b)
  {
    if p == [] {
      assert p + a == a && p + b == b;
    } else {
      LexLeCommonPrefix(p[1..], a, b);
      assert (p + a)[0] == (p + b)[0];
      assert (p + a)[1..] == p[1..] + a;
      assert (p + b)[1..] == p[1..] + b;
    }
  }

  /** One piece of the e-mail pattern: `[^\s@]+`. */
  predicate EmailPart(s: string)
  {
    |s| > 0 && forall k :: 0 <= k < |s| ==> s[k] != '@' && !IsWhitespace(s[k])
  }

  /** The regular expression `^[^\s@]+@[^\s@]+\.[^\s@]+$`, read as the
      existence of the three pieces around the `@` and a later `.`. */
  ghost predicate EmailShape(s: string)
  {
    exists i, j :: 0 < i && i + 1 < j < |s| - 1 && s[i] == '@' && s[j] == '.'
      && EmailPart(s[..i]) && EmailPart(s[i + 1..j]) && EmailPart(s[j + 1..])
  }

  /** The domain after the `@`: no `@` or white space, and a `.` that is
      neither its first nor its last character. */
  predicate EmailDomain(d: string)
  {
    && (forall k :: 0 <= k < |d| ==> d[k] != '@' && !IsWhitespace(d[k]))
    && exists j :: 0 < j < |d| - 1 && d[j] == '.'
  }

  /** The e-mail check as a single scan: split at the first `@`. */
  predicate IsEmail(s: string)
  {
    match IndexOf(s, '@')
    case None => false
    case Some(i) => 0 < i && EmailPart(s[..i]) && EmailDomain(s[i + 1..])
  }

  /** The scan accepts exactly the strings the regular expression matches. */
  lemma EmailIff(s: string)
    ensures IsEmail(s) <==> EmailShape(s)
  {
    if IsEmail(s) {
      EmailSound(s);
    }
    if EmailShape(s) {
      EmailComplete(s);
    }
  }

  lemma EmailSound(s: string)
    requires IsEmail(s)
    ensures EmailShape(s)
  {
    var i := IndexOf(s, '@').value;
    var d := s[i + 1..];
    var j :| 0 < j < |d| - 1 && d[j] == '.';
    var b := s[i + 1..i + 1 + j];
    var c := s[i + 1 + j + 1..];
    assert b == d[..j];
    assert c == d[j + 1..];
    assert EmailPart(b) by {
      forall k | 0 <= k < |b| ensures b[k] != '@' && !IsWhitespace(b[k]) {
        assert b[k] == d[k];
      }
    }
    assert EmailPart(c) by {
      forall k | 0 <= k < |c| ensures c[k] != '@' && !IsWhitespace(c[k]) {
        assert c[k] == d[j + 1 + k];
      }
    }
    assert s[i + 1 + j] == '.';
    assert EmailPart(s[..i]);
  }

  lemma EmailComplete(s: string)
    requires EmailShape(s)
    ensures IsEmail(s)
  {
    var i, j :| 0 < i && i + 1 < j < |s| - 1 && s[i] == '@' && s[j] == '.'
      && EmailPart(s[..i]) && EmailPart(s[i + 1..j]) && EmailPart(s[j + 1..]);
    assert '@' !in s[..i] by {
      forall k | 0 <= k < i ensures s[..i][k] != '@' {
      }
    }
    FirstAt(s, '@', i);
    DomainOf(s, i, j);
  }

  /** The first occurrence of `c` is the one with no `c` before it. */
  lemma FirstAt(s: string, c: char, i: nat)
    requires i < |s| && s[i] == c && c !in s[..i]
    ensures IndexOf(s, c) == Some(i)
  {
    var r := IndexOf(s, c).value;
    assert forall k :: 0 <= k < i ==> s[k] != c by {
      forall k | 0 <= k < i ensures s[k] != c {
        assert s[..i][k] == s[k];
      }
    }
    assert forall k :: 0 <= k < r ==> s[k] != c by {
      forall k | 0 <= k < r ensures s[k] != c {
        assert s[..r][k] == s[k];
      }
    }
  }

  /** A domain made of two pieces around a `.`. */
  lemma DomainOf(s: string, i: nat, j: nat)
    requires i + 1 < j < |s| - 1 && s[j] == '.'
    requires EmailPart(s[i + 1..j]) && EmailPart(s[j + 1..])
    ensures EmailDomain(s[i + 1..])
  {
    var d := s[i + 1..];
    forall k | 0 <= k < |d| ensures d[k] != '@' && !IsWhitespace(d[k]) {
      if k < j - i - 1 {
        assert d[k] == s[i + 1..j][k];
      } else if k > j - i - 1 {
        assert d[k] == s[j + 1..][k - (j - i)];
      }
    }
    assert d[j - i - 1] == '.';
  }
}
