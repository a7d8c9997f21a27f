/** The string operations the TypeScript code relies on: `trim`, `toLowerCase`,
    `startsWith`, `includes`, `join`, `split`, and the decimal rendering of a number. */
module Text {

  /** ECMAScript white space and line terminators: the characters `String.prototype.trim` removes. */
  predicate IsSpace(c: char) {
    || c == ' ' || c == '\t' || c == '\n' || c == '\r'
    || c == '\U{000B}' || c == '\U{000C}' || c == '\U{00A0}' || c == '\U{1680}'
    || ('\U{2000}' <= c <= '\U{200A}')
    || c == '\U{2028}' || c == '\U{2029}' || c == '\U{202F}' || c == '\U{205F}'
    || c == '\U{3000}' || c == '\U{FEFF}'
  }

  function TrimStart(s: string): (r: string)
    ensures |r| <= |s| && r == s[|s| - |r|..]
    ensures r == [] || !IsSpace(r[0])
  {
    if s != [] && IsSpace(s[0]) then TrimStart(s[1..]) else s
  }

  /** What `TrimStart` cuts off is white space. */
  lemma {:induction false} TrimStartCutsSpace(s: string)
    ensures forall i :: 0 <= i < |s| - |TrimStart(s)| ==> IsSpace(s[i])
  {
    if s != [] && IsSpace(s[0]) {
      TrimStartCutsSpace(s[1..]);
      assert forall i :: 1 <= i < |s| ==> s[i] == s[1..][i - 1];
    }
  }

  function TrimEnd(s: string): (r: string)
    ensures |r| <= |s| && r == s[..|r|]
    ensures r == [] || !IsSpace(r[|r| - 1])
  {
    if s != [] && IsSpace(s[|s| - 1]) then TrimEnd(s[..|s| - 1]) else s
  }

  /** What `TrimEnd` cuts off is white space. */
  lemma {:induction false} TrimEndCutsSpace(s: string)
    ensures forall i :: |TrimEnd(s)| <= i < |s| ==> IsSpace(s[i])
  {
    if s != [] && IsSpace(s[|s| - 1]) {
      TrimEndCutsSpace(s[..|s| - 1]);
    }
  }

  /** `s.trim()`: the longest infix of `s` that neither starts nor ends with white space. */
  function Trim(s: string): (r: string)
    ensures r == [] || (!IsSpace(r[0]) && !IsSpace(r[|r| - 1]))
  {
    TrimEnd(TrimStart(s))
  }

  /** Trimming only cuts characters off the ends. */
  lemma TrimIsInfix(s: string)
    ensures IsInfix(Trim(s), s)
  {
    var t := TrimStart(s);
    var r := TrimEnd(t);
    assert s[|s| - |t|..][..|r|] == s[|s| - |t|..|s| - |t| + |r|];
    assert InfixAt(r, s, |s| - |t|);
  }

  /** JavaScript's `!s.trim()`: the trimmed string is empty. */
  predicate IsBlank(s: string) {
    Trim(s) == ""
  }

  lemma {:induction false} BlankIffAllSpace(s: string)
    ensures IsBlank(s) <==> forall i :: 0 <= i < |s| ==> IsSpace(s[i])
  {
    var t := TrimStart(s);
    if forall i :: 0 <= i < |s| ==> IsSpace(s[i]) {
      assert t == [];
    } else {
      var k :| 0 <= k < |s| && !IsSpace(s[k]);
      TrimStartCutsSpace(s);
      assert t != [] && !IsSpace(t[0]);
      TrimEndCutsSpace(t);
      assert TrimEnd(t) != [];
    }
  }

  /** Every character is white space; `!s.trim()` read character by character. */
  predicate AllSpace(s: string) {
    s == [] || (IsSpace(s[0]) && AllSpace(s[1..]))
  }

  lemma {:induction false} AllSpaceIffBlank(s: string)
    ensures AllSpace(s) <==> IsBlank(s)
  {
    AllSpaceSpec(s);
    BlankIffAllSpace(s);
  }

  lemma {:induction false} AllSpaceSpec(s: string)
    ensures AllSpace(s) <==> forall i :: 0 <= i < |s| ==> IsSpace(s[i])
  {
    if s != [] {
      AllSpaceSpec(s[1..]);
      assert forall i :: 1 <= i < |s| ==> s[i] == s[1..][i - 1];
    }
  }

  /** A string with no white space at either end is its own trimmed form. */
  lemma TrimOfTrimmed(s: string)
    requires s == [] || (!IsSpace(s[0]) && !IsSpace(s[|s| - 1]))
    ensures Trim(s) == s
  {
  }

  lemma TrimIdempotent(s: string)
    ensures Trim(Trim(s)) == Trim(s)
  {
    TrimOfTrimmed(Trim(s));
  }

  function LowerChar(c: char): (d: char)
    ensures 'A' <= c <= 'Z' ==> d as int == c as int + 32
    ensures !('A' <= c <= 'Z') ==> d == c
  {
    if 'A' <= c <= 'Z' then (c as int + 32) as char else c
  }

  /** `s.toLowerCase()`, restricted to the ASCII letters. */
  function Lower(s: string): (r: string)
    ensures |r| == |s|
    ensures forall i :: 0 <= i < |s| ==> r[i] == LowerChar(s[i])
  {
    if s == [] then [] else [LowerChar(s[0])] + Lower(s[1..])
  }

  predicate StartsWith(s: string, prefix: string) {
    |prefix| <= |s| && s[..|prefix|] == prefix
  }

  /** `hay.includes(needle)`. */
  predicate IsInfix(needle: string, hay: string) {
    exists i | 0 <= i <= |hay| - |needle| :: InfixAt(needle, hay, i)
  }

  predicate InfixAt(needle: string, hay: string, i: int) {
    0 <= i <= |hay| - |needle| && hay[i..i + |needle|] == needle
  }

  /** `hay.includes(needle)` as a scan from the left. */
  predicate Includes(hay: string, needle: string)
    decreases |hay|
  {
    StartsWith(hay, needle) || (hay != [] && Includes(hay[1..], needle))
  }

  lemma {:induction false} IncludesIffInfix(hay: string, needle: string)
    ensures Includes(hay, needle) <==> IsInfix(needle, hay)
    decreases |hay|
  {
    if hay != [] {
      IncludesIffInfix(hay[1..], needle);
      if IsInfix(needle, hay[1..]) {
        var i :| 0 <= i <= |hay[1..]| - |needle| && InfixAt(needle, hay[1..], i);
        assert hay[1..][i..i + |needle|] == hay[i + 1..i + 1 + |needle|];
        assert InfixAt(needle, hay, i + 1);
      }
      if IsInfix(needle, hay) && !StartsWith(hay, needle) {
        var i :| 0 <= i <= |hay| - |needle| && InfixAt(needle, hay, i);
        assert i != 0;
        assert hay[1..][i - 1..i - 1 + |needle|] == hay[i..i + |needle|];
        assert InfixAt(needle, hay[1..], i - 1);
      }
      if StartsWith(hay, needle) {
        assert InfixAt(needle, hay, 0);
      }
    } else {
      if IsInfix(needle, hay) {
        assert needle == [];
      }
      if StartsWith(hay, needle) {
        assert InfixAt(needle, hay, 0);
      }
    }
  }

  lemma InfixOfConcat(a: string, b: string, c: string)
    ensures IsInfix(b, a + b + c)
  {
    var h := a + b + c;
    assert InfixAt(b, h, |a|);
  }

  lemma InfixTransitive(a: string, b: string, c: string)
    requires IsInfix(a, b) && IsInfix(b, c)
    ensures IsInfix(a, c)
  {
    var i :| 0 <= i <= |b| - |a| && InfixAt(a, b, i);
    var j :| 0 <= j <= |c| - |b| && InfixAt(b, c, j);
    forall k | 0 <= k < |a| ensures c[j + i + k] == a[k] {
      assert c[j..j + |b|][i + k] == b[i + k];
      assert b[i..i + |a|][k] == a[k];
    }
    assert c[j + i..j + i + |a|] == a;
    assert InfixAt(a, c, j + i);
  }

  /** Every part of a join occurs in it. */
  lemma {:induction false} JoinContainsParts(parts: seq<string>, sep: string, i: int)
    requires 0 <= i < |parts|
    ensures IsInfix(parts[i], Join(parts, sep))
  {
    if |parts| == 1 {
      InfixOfConcat("", parts[0], "");
      assert "" + parts[0] + "" == parts[0];
    } else if i == 0 {
      var rest := sep + Join(parts[1..], sep);
      InfixOfConcat("", parts[0], rest);
      assert "" + parts[0] + rest == Join(parts, sep);
    } else {
      var tail := Join(parts[1..], sep);
      JoinContainsParts(parts[1..], sep, i - 1);
      assert parts[1..][i - 1] == parts[i];
      InfixOfConcat(parts[0] + sep, tail, "");
      assert parts[0] + sep + tail + "" == Join(parts, sep);
      InfixTransitive(parts[i], tail, Join(parts, sep));
    }
  }

  /** `parts.join(sep)`. */
  function Join(parts: seq<string>, sep: string): string {
    if |parts| == 0 then ""
    else if |parts| == 1 then parts[0]
    else parts[0] + sep + Join(parts[1..], sep)
  }

  lemma JoinCons(head: string, tail: seq<string>, sep: string)
    requires tail != []
    ensures Join([head] + tail, sep) == head + sep + Join(tail, sep)
  {
    assert ([head] + tail)[1..] == tail;
  }

  lemma JoinTwo(a: string, b: string, sep: string)
    ensures Join([a, b], sep) == a + sep + b
  {
    assert [a, b][1..] == [b];
  }

  /** Two parts joined between a prefix and a suffix. */
  lemma JoinTwoBetween(prefix: string, a: string, b: string, suffix: string, sep: string)
    ensures prefix + Join([a, b], sep) + suffix == prefix + a + sep + b + suffix
  {
    JoinTwo(a, b, sep);
  }

  /** Appending a part to a non-empty join appends the separator and the part. */
  lemma {:induction false} JoinSnoc(parts: seq<string>, last: string, sep: string)
    requires parts != []
    ensures Join(parts + [last], sep) == Join(parts, sep) + sep + last
  {
    if |parts| > 1 {
      JoinSnoc(parts[1..], last, sep);
      assert (parts + [last])[1..] == parts[1..] + [last];
    }
  }

  /** A character in neither the parts nor the separator is not in their join. */
  lemma {:induction false} JoinAvoids(parts: seq<string>, sep: string, c: char)
    requires c !in sep
    requires forall i :: 0 <= i < |parts| ==> c !in parts[i]
    ensures c !in Join(parts, sep)
  {
    if |parts| > 1 {
      JoinAvoids(parts[1..], sep, c);
    }
  }

  /** `s.split(c)` for a one-character separator: always at least one part. */
  function Split(s: string, c: char): (parts: seq<string>)
    ensures |parts| >= 1
  {
    if s == [] then [""]
    else
      var rest := Split(s[1..], c);
      if s[0] == c then [""] + rest else [[s[0]] + rest[0]] + rest[1..]
  }

  lemma {:induction false} SplitWithoutSeparator(a: string, c: char)
    requires c !in a
    ensures Split(a, c) == [a]
  {
    if a != [] {
      SplitWithoutSeparator(a[1..], c);
      assert [a[0]] + a[1..] == a;
    }
  }

  lemma {:induction false} SplitAtFirstSeparator(a: string, b: string, c: char)
    requires c !in a
    ensures Split(a + [c] + b, c) == [a] + Split(b, c)
  {
    var s := a + [c] + b;
    if a == [] {
      assert s[1..] == b;
    } else {
      assert s[1..] == a[1..] + [c] + b;
      SplitAtFirstSeparator(a[1..], b, c);
      assert [a[0]] + a[1..] == a;
    }
  }

  /** Splitting a join recovers the parts, provided no part contains the separator. */
  lemma {:induction false} SplitJoin(parts: seq<string>, c: char)
    requires |parts| >= 1
    requires forall i :: 0 <= i < |parts| ==> c !in parts[i]
    ensures Split(Join(parts, [c]), c) == parts
  {
    if |parts| == 1 {
      SplitWithoutSeparator(parts[0], c);
    } else {
      SplitJoin(parts[1..], c);
      SplitAtFirstSeparator(parts[0], Join(parts[1..], [c]), c);
      assert [parts[0]] + parts[1..] == parts;
    }
  }

  predicate IsDigit(c: char) {
    '0' <= c <= '9'
  }

  /** `String(n)` for a non-negative integer. */
  function Decimal(n: nat): (r: string)
    ensures |r| >= 1
    ensures forall i :: 0 <= i < |r| ==> IsDigit(r[i])
  {
    var d := "0123456789";
    if n < 10 then [d[n]] else Decimal(n / 10) + [d[n % 10]]
  }
}
