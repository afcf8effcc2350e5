/** String helpers shared by the Python models and the JavaScript
    components: ASCII case folding, whitespace stripping, substring search,
    splitting and joining, and the two regular-expression substitutions the
    e-mail ingestor applies.  Strings are `seq<char>`; only the ASCII
    letters and the ASCII whitespace characters are treated specially. */
module Text {

  /** Python's `str.isspace` and JavaScript's `trim` set, restricted to
      ASCII: tab, line feed, vertical tab, form feed, carriage return and
      space. */
  predicate IsSpace(c: char) {
    c == ' ' || (9 <= c as int <= 13)
  }

  predicate IsUpper(c: char) {
    'A' <= c <= 'Z'
  }

  /** ASCII `lower()` / `toLowerCase()` of one character. */
  function LowerChar(c: char): (r: char)
    ensures IsUpper(c) ==> r as int == c as int + 32
    ensures !IsUpper(c) ==> r == c
    ensures !IsUpper(r)
  {
    if IsUpper(c) then (c as int + 32) as char else c
  }

  function Lower(s: string): (r: string)
    ensures |r| == |s|
    ensures forall i :: 0 <= i < |s| ==> r[i] == LowerChar(s[i])
  {
    seq(|s|, i requires 0 <= i < |s| => LowerChar(s[i]))
  }

  lemma LowerIdempotent(s: string)
    ensures Lower(Lower(s)) == Lower(s)
  {
  }

  /** Every character is whitespace (the empty string included). */
  predicate IsBlank(s: string) {
    forall i :: 0 <= i < |s| ==> IsSpace(s[i])
  }

  /** `lstrip()`: the longest suffix of `s` that does not start with
      whitespace, everything cut off being whitespace. */
  function StripLeft(s: string): (r: string)
    ensures |r| <= |s| && r == s[|s| - |r|..]
    ensures r == [] || !IsSpace(r[0])
    ensures IsBlank(s[..|s| - |r|])
    ensures r == [] <==> IsBlank(s)
    decreases |s|
  {
    if |s| > 0 && IsSpace(s[0]) then
      var t := s[1..];
      var r := StripLeft(t);
      assert t[..|t| - |r|] == s[1..|s| - |r|];
      assert s[..|s| - |r|] == [s[0]] + t[..|t| - |r|];
      assert IsBlank(s[..|s| - |r|]);
      assert IsBlank(s) <==> IsBlank(t) by {
        assert forall i :: 0 <= i < |t| ==> t[i] == s[i + 1];
      }
      r
    else s
  }

  /** `rstrip()`: the longest prefix of `s` that does not end with
      whitespace, everything cut off being whitespace. */
  function StripRight(s: string): (r: string)
    ensures |r| <= |s| && r == s[..|r|]
    ensures r == [] || !IsSpace(r[|r| - 1])
    ensures IsBlank(s[|r|..])
    ensures r == [] <==> IsBlank(s)
    decreases |s|
  {
    if |s| > 0 && IsSpace(s[|s| - 1]) then
      var t := s[..|s| - 1];
      var r := StripRight(t);
      assert t[..|r|] == s[..|r|];
      assert s[|r|..] == t[|r|..] + [s[|s| - 1]];
      assert IsBlank(s[|r|..]);
      assert IsBlank(s) <==> IsBlank(t) by {
        assert forall i :: 0 <= i < |t| ==> t[i] == s[i];
      }
      r
    else s
  }

  /** Python's `strip()` and JavaScript's `trim()`: no whitespace at
      either end, and nothing left exactly when `s` is all whitespace. */
  function Strip(s: string): (r: string)
    ensures |r| <= |s|
    ensures r == [] || (!IsSpace(r[0]) && !IsSpace(r[|r| - 1]))
    ensures r == [] <==> IsBlank(s)
  {
    StripRight(StripLeft(s))
  }

  lemma {:induction false} StripLeftOfTrimmed(s: string)
    requires s == [] || !IsSpace(s[0])
    ensures StripLeft(s) == s
  {
  }

  lemma {:induction false} StripRightOfTrimmed(s: string)
    requires s == [] || !IsSpace(s[|s| - 1])
    ensures StripRight(s) == s
  {
  }

  lemma {:induction false} StripRightKeepsLeft(s: string)
    requires s == [] || !IsSpace(s[0])
    ensures StripRight(s) == [] || !IsSpace(StripRight(s)[0])
  {
    var r := StripRight(s);
    if r != [] {
      assert r[0] == s[0];
    }
  }

  /** A string with no whitespace at either end strips to itself. */
  lemma {:induction false} StripOfTrimmed(s: string)
    requires s == [] || (!IsSpace(s[0]) && !IsSpace(s[|s| - 1]))
    ensures Strip(s) == s
  {
    StripLeftOfTrimmed(s);
    StripRightOfTrimmed(s);
  }

  /** Stripping twice is stripping once. */
  lemma {:induction false} StripIdempotent(s: string)
    ensures Strip(Strip(s)) == Strip(s)
  {
    StripOfTrimmed(Strip(s));
  }

  predicate StartsWith(s: string, p: string) {
    |p| <= |s| && s[..|p|] == p
  }

  predicate EndsWith(s: string, p: string) {
    |p| <= |s| && s[|s| - |p|..] == p
  }

  /** Python's `sub in s` and JavaScript's `s.includes(sub)`. */
  predicate Contains(s: string, sub: string)
    decreases |s|
  {
    StartsWith(s, sub) || (|s| > 0 && Contains(s[1..], sub))
  }

  /** `sub` occurs in `s` starting at index `i`. */
  ghost predicate OccursAt(s: string, sub: string, i: int) {
    0 <= i && i + |sub| <= |s| && s[i..i + |sub|] == sub
  }

  /** The recursive search agrees with the positional definition of a
      substring occurrence. */
  lemma {:induction false} ContainsIffOccurs(s: string, sub: string)
    ensures Contains(s, sub) <==> exists i :: OccursAt(s, sub, i)
    decreases |s|
  {
    if StartsWith(s, sub) {
      assert OccursAt(s, sub, 0);
    } else if |s| > 0 {
      ContainsIffOccurs(s[1..], sub);
      if Contains(s[1..], sub) {
        var i :| OccursAt(s[1..], sub, i);
        assert s[1..][i..i + |sub|] == s[i + 1..i + 1 + |sub|];
        assert OccursAt(s, sub, i + 1);
      }
      if exists i :: OccursAt(s, sub, i) {
        var i :| OccursAt(s, sub, i);
        assert i != 0;
        assert s[1..][i - 1..i - 1 + |sub|] == s[i..i + |sub|];
        assert OccursAt(s[1..], sub, i - 1);
      }
    }
  }

  /** The empty query is contained in every string. */
  lemma ContainsEmpty(s: string)
    ensures Contains(s, [])
  {
  }

  lemma ContainsSelf(s: string)
    ensures Contains(s, s)
  {
    assert s[..|s|] == s;
  }

  /** `sep.join(parts)` in Python, `parts.join(sep)` in JavaScript. */
  function Join(parts: seq<string>, sep: string): (r: string)
    ensures |parts| == 1 ==> r == parts[0]
    ensures |parts| == 0 ==> r == []
  {
    if |parts| == 0 then []
    else if |parts| == 1 then parts[0]
    else parts[0] + sep + Join(parts[1..], sep)
  }

  /** Python's `s.split(c)` for a one-character separator: the pieces
      between separators, always at least one. */
  function Split(s: string, c: char): (r: seq<string>)
    ensures |r| >= 1
    ensures forall k, j :: 0 <= k < |r| && 0 <= j < |r[k]| ==> r[k][j] != c
    decreases |s|
  {
    if |s| == 0 then [[]]
    else
      var rest := Split(s[1..], c);
      if s[0] == c then [[]] + rest
      else [[s[0]] + rest[0]] + rest[1..]
  }

  /** Joining the pieces back with the separator gives the original
      string. */
  lemma {:induction false} JoinSplit(s: string, c: char)
    ensures Join(Split(s, c), [c]) == s
    decreases |s|
  {
    if |s| > 0 {
      JoinSplit(s[1..], c);
      var rest := Split(s[1..], c);
      if s[0] != c && |rest| > 1 {
        assert Join([[s[0]] + rest[0]] + rest[1..], [c])
            == [s[0]] + rest[0] + [c] + Join(rest[1..], [c]);
        assert Join(rest, [c]) == rest[0] + [c] + Join(rest[1..], [c]);
      }
      if s[0] == c {
        assert Join([[]] + rest, [c]) == [] + [c] + Join(rest, [c]);
      }
    }
  }

  /** A piece without the separator splits into itself. */
  lemma {:induction false} SplitNoSep(a: string, c: char)
    requires forall j :: 0 <= j < |a| ==> a[j] != c
    ensures Split(a, c) == [a]
    decreases |a|
  {
    if |a| > 0 {
      SplitNoSep(a[1..], c);
      assert [a[0]] + a[1..] == a;
    }
  }

  /** Splitting at the first separator: what precedes it is the first
      piece, the rest splits on its own. */
  lemma {:induction false} SplitAfter(a: string, b: string, c: char)
    requires forall j :: 0 <= j < |a| ==> a[j] != c
    ensures Split(a + [c] + b, c) == [a] + Split(b, c)
    decreases |a|
  {
    var s := a + [c] + b;
    if |a| == 0 {
      assert s[1..] == b;
    } else {
      assert s[1..] == a[1..] + [c] + b;
      SplitAfter(a[1..], b, c);
      assert [a[0]] + a[1..] == a;
    }
  }

  /** Three separator-free pieces joined by the separator split back
      into those pieces. */
  lemma {:induction false} SplitThree(a: string, b: string, d: string, c: char)
    requires forall j :: 0 <= j < |a| ==> a[j] != c
    requires forall j :: 0 <= j < |b| ==> b[j] != c
    requires forall j :: 0 <= j < |d| ==> d[j] != c
    ensures Split(a + [c] + b + [c] + d, c) == [a, b, d]
  {
    assert a + [c] + b + [c] + d == a + [c] + (b + [c] + d);
    SplitAfter(a, b + [c] + d, c);
    SplitAfter(b, d, c);
    SplitNoSep(d, c);
  }

  /** Pieces free of the separator, joined with it, split back into the
      same pieces. */
  lemma {:induction false} SplitJoin(parts: seq<string>, c: char)
    requires |parts| >= 1
    requires forall k, j :: 0 <= k < |parts| && 0 <= j < |parts[k]| ==> parts[k][j] != c
    ensures Split(Join(parts, [c]), c) == parts
    decreases |parts|
  {
    if |parts| == 1 {
      SplitNoSep(parts[0], c);
    } else {
      SplitJoin(parts[1..], c);
      assert Join(parts, [c]) == parts[0] + [c] + Join(parts[1..], [c]);
      SplitAfter(parts[0], Join(parts[1..], [c]), c);
      assert [parts[0]] + parts[1..] == parts;
    }
  }

  /** Python's argument-less `s.split()`: the maximal runs of
      non-whitespace characters, in order. */
  function Words(s: string): (r: seq<string>)
    ensures AllWords(r)
    ensures IsBlank(s) <==> r == []
    decreases |s|
  {
    var t := StripLeft(s);
    if |t| == 0 then []
    else
      var w := WordAt(t);
      assert |w| > 0 && !IsBlank(s);
      var rest := Words(t[|w|..]);
      var r := [w] + rest;
      assert r[1..] == rest;
      r
  }

  /** Every piece is a non-empty run of non-whitespace characters. */
  predicate AllWords(r: seq<string>) {
    |r| == 0 || (|r[0]| > 0 && NoSpace(r[0]) && AllWords(r[1..]))
  }

  predicate NoSpace(s: string) {
    forall j :: 0 <= j < |s| ==> !IsSpace(s[j])
  }

  /** The run of non-whitespace characters at the front of `s`. */
  function WordAt(s: string): (r: string)
    ensures |r| <= |s| && r == s[..|r|]
    ensures NoSpace(r)
    ensures |s| > 0 && !IsSpace(s[0]) ==> |r| > 0
    decreases |s|
  {
    if |s| == 0 || IsSpace(s[0]) then [] else [s[0]] + WordAt(s[1..])
  }

  /** Python's `s.replace(pat, rep)`: every non-overlapping occurrence of
      `pat`, scanning left to right, becomes `rep`. */
  function ReplaceAll(s: string, pat: string, rep: string): (r: string)
    requires |pat| > 0
    ensures !Contains(s, pat) ==> r == s
    decreases |s|
  {
    if |s| == 0 then []
    else if StartsWith(s, pat) then rep + ReplaceAll(s[|pat|..], pat, rep)
    else [s[0]] + ReplaceAll(s[1..], pat, rep)
  }

  /** HTML escaping of ampersands, the inverse direction of the `&amp;`
      clean-up. */
  function EscapeAmp(s: string): (r: string)
    ensures |r| >= |s|
    decreases |s|
  {
    if |s| == 0 then []
    else if s[0] == '&' then "&amp;" + EscapeAmp(s[1..])
    else [s[0]] + EscapeAmp(s[1..])
  }

  /** Replacing `&amp;` by `&` undoes ampersand escaping. */
  lemma {:induction false} UnescapeEscape(s: string)
    ensures ReplaceAll(EscapeAmp(s), "&amp;", "&") == s
    decreases |s|
  {
    if |s| > 0 {
      UnescapeEscape(s[1..]);
      var e := EscapeAmp(s);
      if s[0] == '&' {
        assert StartsWith(e, "&amp;");
        assert e[5..] == EscapeAmp(s[1..]);
      } else {
        assert e[0] == s[0];
        assert !StartsWith(e, "&amp;");
        assert e[1..] == EscapeAmp(s[1..]);
      }
    }
  }

  /** `re.sub(r'\s+', ' ', s)`: every maximal run of whitespace becomes
      one space. */
  function CollapseSpace(s: string): (r: string)
    ensures |r| <= |s|
    ensures forall i :: 0 <= i < |r| && IsSpace(r[i]) ==> r[i] == ' '
    ensures forall i :: 0 <= i < |r| - 1 ==> !(IsSpace(r[i]) && IsSpace(r[i + 1]))
    ensures |s| > 0 && IsSpace(s[0]) ==> |r| > 0 && r[0] == ' '
    ensures |s| > 0 && !IsSpace(s[0]) ==> |r| > 0 && r[0] == s[0]
    decreases |s|
  {
    if |s| == 0 then []
    else if IsSpace(s[0]) then
      var rest := CollapseSpace(StripLeft(s[1..]));
      [' '] + rest
    else [s[0]] + CollapseSpace(s[1..])
  }

  /** The index of the first `c` in `s`, if any. */
  function IndexOf(s: string, c: char): (r: int)
    ensures -1 <= r < |s|
    ensures r >= 0 ==> s[r] == c && forall j :: 0 <= j < r ==> s[j] != c
    ensures r == -1 ==> forall j :: 0 <= j < |s| ==> s[j] != c
    decreases |s|
  {
    if |s| == 0 then -1
    else if s[0] == c then 0
    else
      var k := IndexOf(s[1..], c);
      if k == -1 then -1 else k + 1
  }

  /** `re.sub(r'<[^>]+>', ' ', s)`: every tag (a `<`, at least one
      character that is not `>`, then the first `>`) becomes one space;
      a `<` that does not open such a tag is kept. */
  function StripTags(s: string): (r: string)
    ensures |r| <= |s|
    ensures !Contains(s, "<") ==> r == s
    decreases |s|
  {
    if |s| == 0 then []
    else if s[0] == '<' && TagEnd(s) > 1 then
      " " + StripTags(s[TagEnd(s) + 1..])
    else [s[0]] + StripTags(s[1..])
  }

  /** The index of the `>` closing a tag that starts at index 0, or -1. */
  function TagEnd(s: string): (r: int)
    requires |s| > 0
    ensures -1 <= r < |s|
    ensures r > 1 ==> s[r] == '>'
  {
    var k := IndexOf(s[1..], '>');
    if k >= 1 then k + 1 else -1
  }

  /** Python's `s[:n]`. */
  function Take(s: string, n: nat): (r: string)
    ensures |r| <= n && |r| <= |s|
    ensures |s| <= n ==> r == s
    ensures |s| > n ==> |r| == n
    ensures r == s[..|r|]
  {
    if |s| <= n then s else s[..n]
  }
}
