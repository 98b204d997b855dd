/**
 * The JavaScript string operations the engine relies on, over `seq<char>`:
 * `trim`, `split` on one character, `join`, `includes`, `indexOf`,
 * `startsWith`/`endsWith`, `replace` of the first occurrence and
 * number-to-decimal conversion.
 */
module Strings {

  /** The characters `String.prototype.trim` removes and `\s` matches. */
  predicate IsWhitespace(c: char) {
    c == ' ' || c == '\t' || c == '\n' || c == '\r' || c == '\U{000B}' || c == '\U{000C}'
    || c == '\U{00A0}' || c == '\U{1680}' || ('\U{2000}' <= c <= '\U{200A}')
    || c == '\U{2028}' || c == '\U{2029}' || c == '\U{202F}' || c == '\U{205F}'
    || c == '\U{3000}' || c == '\U{FEFF}'
  }

  predicate AllWhitespace(s: string) {
    forall i :: 0 <= i < |s| ==> IsWhitespace(s[i])
  }

  /** Drops leading whitespace. */
  function TrimStart(s: string): (r: string)
    ensures |r| <= |s| && r == s[|s| - |r|..]
    ensures AllWhitespace(s[..|s| - |r|])
    ensures r == [] || !IsWhitespace(r[0])
  {
    if s != [] && IsWhitespace(s[0]) then
      var r := TrimStart(s[1..]);
      assert s[..|s| - |r|] == [s[0]] + s[1..][..|s| - 1 - |r|];
      r
    else
      s
  }

  /** Drops trailing whitespace. */
  function TrimEnd(s: string): (r: string)
    ensures |r| <= |s| && r == s[..|r|]
    ensures AllWhitespace(s[|r|..])
    ensures r == [] || !IsWhitespace(r[|r| - 1])
  {
    if s != [] && IsWhitespace(s[|s| - 1]) then TrimEnd(s[..|s| - 1]) else s
  }

  /** `s.trim()`. */
  function Trim(s: string): string {
    TrimEnd(TrimStart(s))
  }

  /** A string trims to nothing exactly when it is all whitespace. */
  lemma TrimEmptyIff(s: string)
    ensures Trim(s) == [] <==> AllWhitespace(s)
  {
    var t := TrimStart(s);
    assert t != [] ==> t[0] == s[|s| - |t|];
    if Trim(s) == [] {
      assert t == [] by {
        assert AllWhitespace(t[0..]);
      }
      assert s == s[..|s| - |t|];
    }
  }

  /** Trimming twice is trimming once. */
  lemma TrimIdempotent(s: string)
    ensures Trim(Trim(s)) == Trim(s)
  {
    var t := TrimStart(s);
    var r := TrimEnd(t);
    assert r != [] ==> r[0] == t[0];
    assert TrimStart(r) == r;
  }

  /** `parts.join(sep)`. */
  function Join(parts: seq<string>, sep: string): string {
    if |parts| == 0 then ""
    else if |parts| == 1 then parts[0]
    else parts[0] + sep + Join(parts[1..], sep)
  }

  /** With a non-empty separator, a join is empty only for no parts or one empty part. */
  lemma {:induction false} JoinEmptyIff(parts: seq<string>, sep: string)
    requires sep != ""
    ensures Join(parts, sep) == "" <==> parts == [] || parts == [""]
  {
  }

  /** Every part occurs in the joined string. */
  lemma {:induction false} JoinContainsEach(parts: seq<string>, sep: string, i: nat)
    requires i < |parts|
    ensures Contains(Join(parts, sep), parts[i])
  {
    if |parts| == 1 {
      ContainsAt(parts[0], parts[0], 0);
    } else if i == 0 {
      ContainsAt(Join(parts, sep), parts[0], 0);
    } else {
      JoinContainsEach(parts[1..], sep, i - 1);
      var rest := Join(parts[1..], sep);
      var k := IndexOf(rest, parts[i]);
      var off := |parts[0] + sep|;
      assert Join(parts, sep) == parts[0] + sep + rest;
      assert Join(parts, sep)[off + k..off + k + |parts[i]|] == rest[k..k + |parts[i]|];
      ContainsAt(Join(parts, sep), parts[i], off + k);
    }
  }

  /** `s.split(c)` for a one-character separator. */
  function Split(s: string, c: char): (r: seq<string>)
    ensures |r| >= 1
    ensures forall i :: 0 <= i < |r| ==> c !in r[i]
    ensures Join(r, [c]) == s
    decreases |s|
  {
    if |s| == 0 then [""]
    else
      var rest := Split(s[1..], c);
      if s[0] == c then
        assert Join([""] + rest, [c]) == [c] + Join(rest, [c]) by {
          assert ([""] + rest)[1..] == rest;
        }
        [""] + rest
      else
        var r := [[s[0]] + rest[0]] + rest[1..];
        assert r[1..] == rest[1..];
        assert Join(r, [c]) == s by {
          if |rest| == 1 {
          } else {
            assert Join(rest, [c]) == rest[0] + [c] + Join(rest[1..], [c]);
          }
        }
        r
  }

  /** Appending a part appends the separator and the part. */
  lemma {:induction false} JoinSnoc(parts: seq<string>, x: string, sep: string)
    requires |parts| >= 1
    ensures Join(parts + [x], sep) == Join(parts, sep) + sep + x
  {
    if |parts| == 1 {
    } else {
      assert (parts + [x])[1..] == parts[1..] + [x];
      JoinSnoc(parts[1..], x, sep);
    }
  }

  /** A last part that begins with the separator reads as an empty part followed by the rest. */
  lemma JoinBlankPart(parts: seq<string>, p: string, sep: string)
    requires |parts| >= 1
    ensures Join(parts + [sep + p], sep) == Join(parts + ["", p], sep)
  {
    JoinSnoc(parts, sep + p, sep);
    JoinSnocTwo(parts, "", p, sep);
    Regroup(Join(parts, sep), sep, p);
  }

  lemma JoinSnocTwo(parts: seq<string>, x: string, y: string, sep: string)
    requires |parts| >= 1
    ensures Join(parts + [x, y], sep) == Join(parts, sep) + sep + x + sep + y
  {
    JoinSnoc(parts, x, sep);
    JoinSnoc(parts + [x], y, sep);
    assert parts + [x] + [y] == parts + [x, y];
  }

  lemma Regroup(j: string, sep: string, p: string)
    ensures j + sep + (sep + p) == j + sep + "" + sep + p
  {
  }

  /** A join starts with its first part. */
  lemma JoinStartsWithFirst(parts: seq<string>, sep: string)
    requires |parts| >= 1
    ensures StartsWith(Join(parts, sep), parts[0])
  {
  }

  /** The only way to cut `s` at every `c` is `Split(s, c)`. */
  lemma {:induction false} SplitUnique(s: string, c: char, parts: seq<string>)
    requires |parts| >= 1
    requires forall i :: 0 <= i < |parts| ==> c !in parts[i]
    requires Join(parts, [c]) == s
    ensures Split(s, c) == parts
    decreases |s|
  {
    if |s| == 0 {
      assert |parts| >= 2 ==> |Join(parts, [c])| >= 1;
    } else if s[0] == c {
      assert parts[0] == "" by {
        JoinStartsWithFirst(parts, [c]);
        assert s[0] !in parts[0];
      }
      assert |parts| >= 2;
      assert s[1..] == Join(parts[1..], [c]);
      SplitUnique(s[1..], c, parts[1..]);
    } else {
      assert parts[0] != "";
      var p := [parts[0][1..]] + parts[1..];
      assert p[1..] == parts[1..];
      forall i | 0 <= i < |p|
        ensures c !in p[i]
      {
        if i == 0 {
          assert forall x :: x in parts[0][1..] ==> x in parts[0];
        }
      }
      assert s[1..] == Join(p, [c]);
      SplitUnique(s[1..], c, p);
      assert parts[0] == [s[0]] + parts[0][1..];
    }
  }

  /** Splitting a join of separator-free parts gives the parts back. */
  lemma SplitJoin(parts: seq<string>, c: char)
    requires |parts| >= 1
    requires forall i :: 0 <= i < |parts| ==> c !in parts[i]
    ensures Split(Join(parts, [c]), c) == parts
  {
    SplitUnique(Join(parts, [c]), c, parts);
  }

  /** Joining two non-empty lists of parts puts one separator between the two joins. */
  lemma {:induction false} JoinConcat(x: seq<string>, y: seq<string>, sep: string)
    requires |x| >= 1 && |y| >= 1
    ensures Join(x + y, sep) == Join(x, sep) + sep + Join(y, sep)
  {
    if |x| == 1 {
      assert (x + y)[1..] == y;
    } else {
      assert (x + y)[1..] == x[1..] + y;
      JoinConcat(x[1..], y, sep);
    }
  }

  /** Splitting at a separator placed between two strings splits each of them. */
  lemma SplitConcat(a: string, b: string, c: char)
    ensures Split(a + [c] + b, c) == Split(a, c) + Split(b, c)
  {
    var parts := Split(a, c) + Split(b, c);
    JoinConcat(Split(a, c), Split(b, c), [c]);
    forall i | 0 <= i < |parts|
      ensures c !in parts[i]
    {
      if i >= |Split(a, c)| {
        assert parts[i] == Split(b, c)[i - |Split(a, c)|];
      }
    }
    SplitUnique(a + [c] + b, c, parts);
  }

  /** `pat` occurs in `s` at index `i`. */
  predicate IsAt(s: string, pat: string, i: nat) {
    i + |pat| <= |s| && s[i..i + |pat|] == pat
  }

  /** `s.indexOf(pat, i)`: the first occurrence at or after `i`, or -1. */
  function IndexFrom(s: string, pat: string, i: nat): (r: int)
    requires i <= |s|
    ensures r == -1 || (i <= r <= |s| && IsAt(s, pat, r))
    ensures r == -1 ==> forall j :: i <= j <= |s| ==> !IsAt(s, pat, j)
    ensures r != -1 ==> forall j :: i <= j < r ==> !IsAt(s, pat, j)
    decreases |s| - i
  {
    if IsAt(s, pat, i) then i
    else if i == |s| then -1
    else IndexFrom(s, pat, i + 1)
  }

  /** `s.indexOf(pat)`. */
  function IndexOf(s: string, pat: string): int {
    IndexFrom(s, pat, 0)
  }

  /** `s.includes(pat)`. */
  predicate Contains(s: string, pat: string) {
    IndexOf(s, pat) >= 0
  }

  /** An occurrence anywhere makes `Contains` true. */
  lemma ContainsAt(s: string, pat: string, i: nat)
    requires IsAt(s, pat, i)
    ensures Contains(s, pat)
  {
  }

  /** `s.startsWith(p)`. */
  predicate StartsWith(s: string, p: string) {
    |p| <= |s| && s[..|p|] == p
  }

  /** `s.endsWith(p)`. */
  predicate EndsWith(s: string, p: string) {
    |p| <= |s| && s[|s| - |p|..] == p
  }

  /** `s.slice(0, n)` for `n >= 0`. */
  function Take(s: string, n: nat): (r: string)
    ensures |r| <= n && |r| <= |s|
    ensures |s| <= n ==> r == s
    ensures StartsWith(s, r)
  {
    if |s| <= n then s else s[..n]
  }

  /** `s.replace(pat, rep)` with a plain-string pattern: only the first occurrence changes. */
  function ReplaceFirst(s: string, pat: string, rep: string): (r: string)
    ensures IndexOf(s, pat) == -1 ==> r == s
    ensures IndexOf(s, pat) >= 0 ==>
      var i := IndexOf(s, pat); r == s[..i] + rep + s[i + |pat|..]
  {
    var i := IndexOf(s, pat);
    if i < 0 then s else s[..i] + rep + s[i + |pat|..]
  }

  /** The replacement goes in at the first occurrence of the pattern, and the text around it is kept. */
  lemma ReplacesFirstOccurrence(content: string, oldText: string, newText: string)
    requires Contains(content, oldText)
    ensures exists i :: 0 <= i <= |content| && IsAt(content, oldText, i)
              && (forall j :: 0 <= j < i ==> !IsAt(content, oldText, j))
              && ReplaceFirst(content, oldText, newText) == content[..i] + newText + content[i + |oldText|..]
  {
    var i := IndexOf(content, oldText);
    assert IsAt(content, oldText, i);
  }

  predicate IsDigit(c: char) {
    '0' <= c <= '9'
  }

  function DigitChar(d: nat): (c: char)
    requires d < 10
    ensures IsDigit(c)
  {
    "0123456789"[d]
  }

  /** The decimal text of a natural number, as `String(n)` prints it. */
  function NatToString(n: nat): (r: string)
    ensures |r| >= 1
    ensures forall i :: 0 <= i < |r| ==> IsDigit(r[i])
  {
    if n < 10 then [DigitChar(n)] else NatToString(n / 10) + [DigitChar(n % 10)]
  }

  /** The decimal text of an integer, with a leading minus sign when negative. */
  function IntToString(n: int): string {
    if n < 0 then "-" + NatToString(-n) else NatToString(n)
  }
}
