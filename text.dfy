/** String operations of JavaScript and Python that the site's widgets and
    its content generator rely on, stated over `seq<char>`. */
module Text {

  datatype Option<+T> = None | Some(value: T)

  /** JavaScript's `String.prototype.trim` strips WhiteSpace and
      LineTerminator code points; this is that set, written out. */
  predicate IsJsWhitespace(c: char) {
    || c == ' ' || c == '\t' || c == '\n' || c == '\U{000B}' || c == '\U{000C}' || c == '\r'
    || c == '\U{00A0}' || c == '\U{1680}' || ('\U{2000}' <= c <= '\U{200A}')
    || c == '\U{2028}' || c == '\U{2029}' || c == '\U{202F}' || c == '\U{205F}'
    || c == '\U{3000}' || c == '\U{FEFF}'
  }

  /** True when `s` holds nothing but whitespace (or nothing at all). */
  predicate IsBlank(s: string) {
    forall i :: 0 <= i < |s| ==> IsJsWhitespace(s[i])
  }

  /** Leading whitespace removed. */
  function TrimStart(s: string): (r: string)
    ensures |r| <= |s| && r == s[|s| - |r|..]
    ensures forall i :: 0 <= i < |s| - |r| ==> IsJsWhitespace(s[i])
    ensures r != [] ==> !IsJsWhitespace(r[0])
    decreases |s|
  {
    if |s| > 0 && IsJsWhitespace(s[0]) then TrimStart(s[1..]) else s
  }

  /** Trailing whitespace removed. */
  function TrimEnd(s: string): (r: string)
    ensures |r| <= |s| && r == s[..|r|]
    ensures forall i :: |r| <= i < |s| ==> IsJsWhitespace(s[i])
    ensures r != [] ==> !IsJsWhitespace(r[|r| - 1])
    decreases |s|
  {
    if |s| > 0 && IsJsWhitespace(s[|s| - 1]) then TrimEnd(s[..|s| - 1]) else s
  }

  /** `r` sits in `s` at `k`, and everything before and after it is
      whitespace. */
  predicate TrimmedAt(s: string, r: string, k: int) {
    && OccursAt(s, r, k)
    && (forall i :: 0 <= i < k ==> IsJsWhitespace(s[i]))
    && (forall i :: k + |r| <= i < |s| ==> IsJsWhitespace(s[i]))
  }

  /** `s.trim()`: a contiguous slice of `s` that neither starts nor ends with
      whitespace, everything cut away being whitespace; it is empty exactly
      when `s` is blank. */
  function Trim(s: string): (r: string)
    ensures exists k :: TrimmedAt(s, r, k)
    ensures r != [] ==> !IsJsWhitespace(r[0]) && !IsJsWhitespace(r[|r| - 1])
    ensures r == [] <==> IsBlank(s)
  {
    var t := TrimStart(s);
    var r := TrimEnd(t);
    TrimOccurs(s, t, r);
    TrimBlank(s, t, r);
    r
  }

  /** What is left after trimming sits in `s` where the leading
      whitespace ends, with only whitespace around it. */
  lemma TrimOccurs(s: string, t: string, r: string)
    requires t == TrimStart(s) && r == TrimEnd(t)
    ensures TrimmedAt(s, r, |s| - |t|)
  {
    Trimmed(s, t, r);
  }

  /** A prefix `r` of a suffix `t` of `s`, with whitespace before `t` and
      after `r` inside `t`, is trimmed from `s`. */
  lemma Trimmed(s: string, t: string, r: string)
    requires |t| <= |s| && t == s[|s| - |t|..] && |r| <= |t| && r == t[..|r|]
    requires forall i :: 0 <= i < |s| - |t| ==> IsJsWhitespace(s[i])
    requires forall i :: |r| <= i < |t| ==> IsJsWhitespace(t[i])
    ensures TrimmedAt(s, r, |s| - |t|)
  {
    var k := |s| - |t|;
    PrefixOfSuffix(s, k, r);
    forall i | k + |r| <= i < |s| ensures IsJsWhitespace(s[i]) {
      assert s[i] == t[i - k];
    }
  }

  /** A prefix of the suffix of `s` from `k` is the slice of `s` at `k`. */
  lemma PrefixOfSuffix(s: string, k: nat, r: string)
    requires k <= |s| && |r| <= |s| - k && r == s[k..][..|r|]
    ensures OccursAt(s, r, k)
  {
    assert s[k..][..|r|] == s[k..k + |r|];
  }

  /** Trimming leaves nothing exactly when everything was whitespace. */
  lemma TrimBlank(s: string, t: string, r: string)
    requires t == TrimStart(s) && r == TrimEnd(t)
    ensures r == [] <==> IsBlank(s)
    ensures r != [] ==> !IsJsWhitespace(r[0]) && !IsJsWhitespace(r[|r| - 1])
  {
    if r == [] {
      if t != [] {
        assert false;
      }
    } else {
      assert r[0] == t[0] == s[|s| - |t|];
    }
  }

  predicate IsAsciiUpper(c: char) {
    'A' <= c <= 'Z'
  }

  /** `toLowerCase()` / `lower()` restricted to ASCII letters. */
  function LowerChar(c: char): (d: char)
    ensures !IsAsciiUpper(d)
    ensures IsAsciiUpper(c) ==> d as int == c as int + 32
    ensures !IsAsciiUpper(c) ==> d == c
  {
    if IsAsciiUpper(c) then (c as int + 32) as char else c
  }

  /** Every character lower-cased; nothing else changes. */
  function Lower(s: string): (r: string)
    ensures |r| == |s|
    ensures forall i :: 0 <= i < |s| ==> r[i] == LowerChar(s[i])
  {
    seq(|s|, i requires 0 <= i < |s| => LowerChar(s[i]))
  }

  lemma LowerIdempotent(s: string)
    ensures Lower(Lower(s)) == Lower(s)
  {
  }

  /** Lower-casing changes no whitespace, so it never turns a blank string
      into a non-blank one or back. */
  lemma LowerKeepsBlank(s: string)
    ensures IsBlank(Lower(s)) <==> IsBlank(s)
  {
    forall i | 0 <= i < |s| ensures IsJsWhitespace(Lower(s)[i]) <==> IsJsWhitespace(s[i]) {
      assert IsJsWhitespace(s[i]) ==> !IsAsciiUpper(s[i]);
    }
  }

  predicate StartsWith(s: string, prefix: string) {
    |prefix| <= |s| && s[..|prefix|] == prefix
  }

  predicate EndsWith(s: string, suffix: string) {
    |suffix| <= |s| && s[|s| - |suffix|..] == suffix
  }

  /** `t` sits in `s` at position `i`. */
  predicate OccursAt(s: string, t: string, i: int) {
    0 <= i && i + |t| <= |s| && s[i..i + |t|] == t
  }

  /** `s.includes(t)` (JavaScript) / `t in s` (Python). */
  predicate Contains(s: string, t: string)
    decreases |s|
  {
    StartsWith(s, t) || (|s| > 0 && Contains(s[1..], t))
  }

  /** `Contains` agrees with the textbook definition of a substring. */
  lemma {:induction false} ContainsIff(s: string, t: string)
    ensures Contains(s, t) <==> exists i :: OccursAt(s, t, i)
    decreases |s|
  {
    if StartsWith(s, t) {
      assert OccursAt(s, t, 0);
    } else if |s| == 0 {
      assert forall i :: !OccursAt(s, t, i);
    } else {
      ContainsIff(s[1..], t);
      if Contains(s[1..], t) {
        var i :| OccursAt(s[1..], t, i);
        assert s[1..][i..i + |t|] == s[i + 1..i + 1 + |t|];
        assert OccursAt(s, t, i + 1);
      } else {
        forall i | OccursAt(s, t, i) ensures false {
          assert i != 0;
          assert s[1..][i - 1..i - 1 + |t|] == s[i..i + |t|];
          assert OccursAt(s[1..], t, i - 1);
        }
      }
    }
  }

  /** `s.split(sep)` for a one-character separator (JavaScript and Python
      agree on it): the pieces between separators, in order, at least one. */
  function Split(s: string, sep: char): (r: seq<string>)
    ensures |r| >= 1
    ensures forall i :: 0 <= i < |r| ==> sep !in r[i]
    decreases |s|
  {
    if |s| == 0 then [[]]
    else
      var rest := Split(s[1..], sep);
      if s[0] == sep then [[]] + rest
      else [[s[0]] + rest[0]] + rest[1..]
  }

  /** `sep.join(pieces)` (Python) / `pieces.join(sep)` (JavaScript). */
  function Join(pieces: seq<string>, sep: string): string
    decreases |pieces|
  {
    if |pieces| == 0 then []
    else if |pieces| == 1 then pieces[0]
    else pieces[0] + sep + Join(pieces[1..], sep)
  }

  /** Joining the pieces of a split with the same separator gives back the
      original string. */
  lemma {:induction false} JoinSplit(s: string, sep: char)
    ensures Join(Split(s, sep), [sep]) == s
    decreases |s|
  {
    if |s| > 0 {
      var rest := Split(s[1..], sep);
      JoinSplit(s[1..], sep);
      if s[0] == sep {
        assert s == [sep] + s[1..];
      } else if |rest| == 1 {
        assert s == [s[0]] + s[1..];
      } else {
        assert rest == [rest[0]] + rest[1..];
        assert Join(rest, [sep]) == rest[0] + [sep] + Join(rest[1..], [sep]);
        assert s == [s[0]] + s[1..];
      }
    }
  }

  /** Splitting a join of separator-free pieces gives the pieces back. */
  lemma {:induction false} SplitJoin(pieces: seq<string>, sep: char)
    requires |pieces| >= 1
    requires forall i :: 0 <= i < |pieces| ==> sep !in pieces[i]
    ensures Split(Join(pieces, [sep]), sep) == pieces
    decreases |pieces|, |pieces[0]|
  {
    var p := pieces[0];
    if |p| == 0 {
      if |pieces| > 1 {
        SplitJoin(pieces[1..], sep);
        assert Join(pieces, [sep]) == [sep] + Join(pieces[1..], [sep]);
      }
    } else {
      var shorter := [p[1..]] + pieces[1..];
      assert forall i :: 0 <= i < |shorter| ==> sep !in shorter[i] by {
        forall i | 0 <= i < |shorter| ensures sep !in shorter[i] {
          if i == 0 {
            assert forall c :: c in p[1..] ==> c in p;
          } else {
            assert shorter[i] == pieces[i];
          }
        }
      }
      SplitJoin(shorter, sep);
      var j := Join(pieces, [sep]);
      assert j == [p[0]] + Join(shorter, [sep]) by {
        if |pieces| == 1 {
          assert p == [p[0]] + p[1..];
        } else {
          assert shorter[1..] == pieces[1..];
          assert p == [p[0]] + p[1..];
        }
      }
      assert j[1..] == Join(shorter, [sep]);
      assert j[0] == p[0] != sep;
      assert Split(j, sep) == [[p[0]] + p[1..]] + pieces[1..];
      assert [p[0]] + p[1..] == p;
      assert pieces == [p] + pieces[1..];
    }
  }

  /** The last element of a non-empty sequence (Python's `xs[-1]`). */
  function Last<T>(xs: seq<T>): T
    requires |xs| > 0
  {
    xs[|xs| - 1]
  }

  /** All elements after the first (Python's `xs[1:]`, which is empty for an
      empty list). */
  function Tail<T>(xs: seq<T>): (r: seq<T>)
    ensures |xs| > 0 ==> xs == xs[..1] + r
    ensures |xs| == 0 ==> r == []
  {
    if |xs| == 0 then [] else xs[1..]
  }

  /** Index of the first `c` in `s`, or `|s|` when there is none. */
  function IndexOf(s: string, c: char): (k: nat)
    ensures k <= |s|
    ensures c !in s[..k]
    ensures k < |s| ==> s[k] == c
    decreases |s|
  {
    if |s| == 0 then 0
    else if s[0] == c then 0
    else 1 + IndexOf(s[1..], c)
  }

  /** `s.replace(c, '')` with a string pattern in JavaScript: only the first
      occurrence goes. */
  function RemoveFirst(s: string, c: char): (r: string)
    ensures c !in s ==> r == s
    ensures c in s ==> |r| == |s| - 1 && multiset(r) + multiset{c} == multiset(s)
    ensures c in s ==> exists k :: 0 <= k < |s| && s[k] == c && c !in s[..k] && r == s[..k] + s[k + 1..]
  {
    var k := IndexOf(s, c);
    if k == |s| then
      assert s[..k] == s;
      s
    else
      assert s == s[..k] + [c] + s[k + 1..];
      s[..k] + s[k + 1..]
  }

  /** When `c` occurs, `RemoveFirst` cuts out the first one. */
  lemma RemoveFirstAt(s: string, c: char)
    requires c in s
    ensures IndexOf(s, c) < |s|
    ensures RemoveFirst(s, c) == s[..IndexOf(s, c)] + s[IndexOf(s, c) + 1..]
  {
    assert s[..|s|] == s;
  }

  /** The line boundaries of Python's `str.splitlines`. */
  predicate IsLineBreak(c: char) {
    || c == '\n' || c == '\r' || c == '\U{000B}' || c == '\U{000C}'
    || c == '\U{001C}' || c == '\U{001D}' || c == '\U{001E}' || c == '\U{0085}'
    || c == '\U{2028}' || c == '\U{2029}'
  }

  predicate HasNoLineBreak(s: string) {
    forall i :: 0 <= i < |s| ==> !IsLineBreak(s[i])
  }

  /** Printable ASCII only. */
  predicate Printable(s: string) {
    forall i :: 0 <= i < |s| ==> ' ' <= s[i] <= '~'
  }

  /** Printable ASCII holds no line boundary. */
  lemma PrintableOneLine(s: string)
    requires Printable(s)
    ensures HasNoLineBreak(s)
  {
  }

  /** The only line boundary in `s`, if any, is '\n'. */
  predicate OnlyNewlines(s: string) {
    forall i :: 0 <= i < |s| ==> IsLineBreak(s[i]) ==> s[i] == '\n'
  }

  /** Index of the first line boundary in `s`, or `|s|`. */
  function LineEnd(s: string): (k: nat)
    ensures k <= |s| && HasNoLineBreak(s[..k])
    ensures k < |s| ==> IsLineBreak(s[k])
    decreases |s|
  {
    if |s| == 0 || IsLineBreak(s[0]) then 0
    else
      var k := 1 + LineEnd(s[1..]);
      assert forall i :: 1 <= i < k ==> s[..k][i] == s[1..][..k - 1][i - 1];
      k
  }

  /** `s.splitlines()`: the lines of `s` without their boundaries ('\r\n'
      is one boundary); no empty last line for a final boundary, and no
      lines at all for ''. */
  function SplitLines(s: string): (lines: seq<string>)
    ensures forall i :: 0 <= i < |lines| ==> HasNoLineBreak(lines[i])
    ensures lines == [] <==> s == []
    decreases |s|
  {
    if |s| == 0 then []
    else
      var k := LineEnd(s);
      if k == |s| then
        assert s[..k] == s;
        [s]
      else
        var width := if s[k] == '\r' && k + 1 < |s| && s[k + 1] == '\n' then 2 else 1;
        [s[..k]] + SplitLines(s[k + width..])
  }

  lemma LineEndOfLine(a: string, b: string)
    requires HasNoLineBreak(a) && |b| > 0 && IsLineBreak(b[0])
    ensures LineEnd(a + b) == |a|
    decreases |a|
  {
    if |a| > 0 {
      assert (a + b)[1..] == a[1..] + b;
      LineEndOfLine(a[1..], b);
    }
  }

  /** A line followed by '\n' splits off as the first line. */
  lemma SplitLinesCons(a: string, b: string)
    requires HasNoLineBreak(a)
    ensures SplitLines(a + "\n" + b) == [a] + SplitLines(b)
  {
    var s := a + "\n" + b;
    LineEndOfLine(a, "\n" + b);
    assert s == a + ("\n" + b);
    assert s[..|a|] == a && s[|a|] == '\n';
    assert s[|a| + 1..] == b;
  }

  /** A line followed by any one boundary character splits off as the
      first line; a '\r' counts alone only when no '\n' follows it. */
  lemma SplitLinesBreak(a: string, c: char, b: string)
    requires HasNoLineBreak(a) && IsLineBreak(c)
    requires c == '\r' ==> !StartsWith(b, "\n")
    ensures SplitLines(a + [c] + b) == [a] + SplitLines(b)
  {
    var s := a + [c] + b;
    LineEndOfLine(a, [c] + b);
    assert s == a + ([c] + b);
    assert s[..|a|] == a && s[|a|] == c;
    if c == '\r' && |a| + 1 < |s| {
      assert s[|a| + 1] == b[0];
      assert b[..1] == [b[0]];
    }
    assert s[|a| + 1..] == b;
  }

  /** A line followed by '\r\n' splits off as the first line: the pair is
      one boundary. */
  lemma SplitLinesCrlf(a: string, b: string)
    requires HasNoLineBreak(a)
    ensures SplitLines(a + "\r\n" + b) == [a] + SplitLines(b)
  {
    var s := a + "\r\n" + b;
    LineEndOfLine(a, "\r\n" + b);
    assert s == a + ("\r\n" + b);
    assert s[..|a|] == a && s[|a|] == '\r' && s[|a| + 1] == '\n';
    assert s[|a| + 2..] == b;
  }

  /** A text without boundaries is one line. */
  lemma SplitLinesOneLine(s: string)
    requires s != [] && HasNoLineBreak(s)
    ensures SplitLines(s) == [s]
    ensures !EndsWith(s, "\n")
  {
    assert !IsLineBreak(s[|s| - 1]);
    assert s[|s| - 1..] == [s[|s| - 1]];
  }

  /** Joining one line before the others. */
  lemma JoinCons(line: string, rest: seq<string>, sep: string)
    requires rest != []
    ensures Join([line] + rest, sep) == line + sep + Join(rest, sep)
  {
    assert ([line] + rest)[1..] == rest;
  }

  lemma OnlyNewlinesSuffix(s: string, k: nat)
    requires OnlyNewlines(s) && k <= |s|
    ensures OnlyNewlines(s[k..])
  {
    forall i | 0 <= i < |s| - k && IsLineBreak(s[k..][i]) ensures s[k..][i] == '\n' {
      assert s[k..][i] == s[k + i];
    }
  }

  lemma EndsWithNewlineSuffix(line: string, rest: string)
    requires rest != []
    ensures EndsWith(line + "\n" + rest, "\n") == EndsWith(rest, "\n")
  {
    var s := line + "\n" + rest;
    assert s[|s| - 1..] == rest[|rest| - 1..];
  }

  /** What `JoinSplitLines` states, as a predicate on the text. */
  predicate LinesRejoin(s: string) {
    Join(SplitLines(s), "\n") + (if EndsWith(s, "\n") then "\n" else "") == s
  }

  lemma LinesRejoinCons(line: string, rest: string)
    requires HasNoLineBreak(line) && LinesRejoin(rest)
    ensures LinesRejoin(line + "\n" + rest)
  {
    var s := line + "\n" + rest;
    SplitLinesCons(line, rest);
    if rest == [] {
      assert s == line + "\n";
      assert EndsWith(s, "\n");
    } else {
      JoinCons(line, SplitLines(rest), "\n");
      EndsWithNewlineSuffix(line, rest);
    }
  }

  /** For text whose only boundary is '\n', joining the lines with '\n'
      gives the text back, but for a final '\n', which is lost. */
  lemma {:induction false} JoinSplitLines(s: string)
    requires OnlyNewlines(s)
    ensures LinesRejoin(s)
    decreases |s|
  {
    if |s| > 0 {
      var k := LineEnd(s);
      if k == |s| {
        assert s[..k] == s;
        SplitLinesOneLine(s);
      } else {
        var line, rest := s[..k], s[k + 1..];
        assert s == line + "\n" + rest by {
          assert s[k] == '\n';
          assert s == s[..k] + [s[k]] + s[k + 1..];
        }
        OnlyNewlinesSuffix(s, k + 1);
        JoinSplitLines(rest);
        LinesRejoinCons(line, rest);
      }
    }
  }
}
