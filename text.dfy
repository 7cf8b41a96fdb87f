/** The string operations the Python code takes from `re` and `str`: character classes of a
    byte-string pattern, case-insensitive matching, re.search as a left-to-right scan,
    re.sub on a literal pattern, slicing and lstrip. */
module Text {
  import opened Common

  /** `\d` of a byte-string pattern. */
  predicate IsDigit(c: char) { '0' <= c <= '9' }

  /** `[a-f0-9]` under re.IGNORECASE. */
  predicate IsHexDigit(c: char) { IsDigit(c) || 'a' <= c <= 'f' || 'A' <= c <= 'F' }

  /** string.whitespace, which is also what `\s` matches in a byte-string pattern:
      space, tab, newline, vertical tab, form feed and carriage return. */
  predicate IsSpace(c: char) { c == ' ' || '\t' <= c <= '\r' }

  /** The ASCII case folding re.IGNORECASE applies to a byte string. */
  function Lower(c: char): char { if 'A' <= c <= 'Z' then (c as int + 32) as char else c }

  /** `all(i in string.whitespace for i in s)`, which holds of the empty string. */
  predicate AllSpace(s: string) { forall k :: 0 <= k < |s| ==> IsSpace(s[k]) }

  /** The literal `p` occurs in `s` at position `i`. */
  predicate IsAt(s: string, i: nat, p: string) { i + |p| <= |s| && s[i..i + |p|] == p }

  /** The literal `p` occurs in `s` at position `i`, ignoring ASCII case. */
  predicate IsAtNoCase(s: string, i: nat, p: string)
  {
    i + |p| <= |s| && forall k :: 0 <= k < |p| ==> Lower(s[i + k]) == Lower(p[k])
  }

  /** A literal that occurs exactly also occurs ignoring case. */
  lemma IsAtIgnoringCase(s: string, i: nat, p: string)
    requires IsAt(s, i, p)
    ensures IsAtNoCase(s, i, p)
  {
    forall k | 0 <= k < |p| ensures Lower(s[i + k]) == Lower(p[k]) {
      assert s[i..i + |p|][k] == s[i + k];
    }
  }

  /** A piece of a concatenation occurs at its own offset. */
  lemma IsAtPiece(a: string, p: string, b: string)
    ensures IsAt(a + p + b, |a|, p)
  {
    assert (a + p + b)[|a|..|a| + |p|] == p;
  }

  /** re.search of a literal pattern. */
  ghost predicate Contains(s: string, p: string) { exists i :: 0 <= i <= |s| && IsAt(s, i, p) }

  /** re.search of a literal pattern with re.IGNORECASE. */
  ghost predicate ContainsNoCase(s: string, p: string) { exists i :: 0 <= i <= |s| && IsAtNoCase(s, i, p) }

  /** One character of a pattern in which `.` is the only special character: it matches
      anything but a newline, as in Python's re without DOTALL. */
  predicate DotMatches(pc: char, c: char) { if pc == '.' then c != '\n' else c == pc }

  /** The pattern `p`, read with `.` as the wildcard and every other character literally,
      matches `s` at position `i`. */
  predicate DotPatternAt(s: string, i: nat, p: string)
  {
    i + |p| <= |s| && forall k :: 0 <= k < |p| ==> DotMatches(p[k], s[i + k])
  }

  /** re.search of such a pattern. */
  ghost predicate ContainsDotPattern(s: string, p: string)
  {
    exists i :: 0 <= i <= |s| && DotPatternAt(s, i, p)
  }

  /** Every literal occurrence is a match, and for a pattern without `.` the matches are
      exactly the literal occurrences. */
  lemma DotPatternLiteral(s: string, i: nat, p: string)
    ensures IsAt(s, i, p) ==> DotPatternAt(s, i, p)
    ensures '.' !in p && DotPatternAt(s, i, p) ==> IsAt(s, i, p)
  {
    if IsAt(s, i, p) {
      forall k | 0 <= k < |p| ensures DotMatches(p[k], s[i + k]) {
        assert s[i + k] == s[i..i + |p|][k];
      }
    }
    if '.' !in p && DotPatternAt(s, i, p) {
      assert s[i..i + |p|] == p by {
        forall k | 0 <= k < |p| ensures s[i..i + |p|][k] == p[k] {
          assert DotMatches(p[k], s[i + k]);
        }
      }
    }
  }

  /** The leftmost position at or after `i` where a pattern, given as a predicate on
      positions, matches: the scan re.search performs. */
  function FindFrom(s: string, i: nat, p: (string, nat) -> bool): (r: Option<nat>)
    decreases |s| + 1 - i
    ensures r.Some? ==> i <= r.value <= |s| && p(s, r.value)
    ensures r.Some? ==> forall j :: i <= j < r.value ==> !p(s, j)
    ensures r.None? ==> forall j :: i <= j <= |s| ==> !p(s, j)
  {
    if i > |s| then None
    else if p(s, i) then Some(i)
    else FindFrom(s, i + 1, p)
  }

  /** `re.search(...) is not None` for a pattern given as a predicate on positions. */
  function Search(s: string, p: (string, nat) -> bool): (found: bool)
    ensures found <==> exists i :: 0 <= i <= |s| && p(s, i)
  {
    FindFrom(s, 0, p).Some?
  }

  /** `s[:n]`, which Python clamps to the length of `s`. */
  function Prefix(s: string, n: nat): (r: string)
    ensures |r| <= n && r <= s
    ensures |s| <= n ==> r == s
    ensures n <= |s| ==> |r| == n
  {
    if |s| <= n then s else s[..n]
  }

  /** How many leading characters of `s` belong to the set `chars`. */
  function StripCount(s: string, chars: set<char>): (n: nat)
    ensures n <= |s| && forall k :: 0 <= k < n ==> s[k] in chars
    ensures n < |s| ==> s[n] !in chars
  {
    if s != [] && s[0] in chars then
      var m := StripCount(s[1..], chars);
      assert forall k :: 1 <= k < 1 + m ==> s[k] == s[1..][k - 1];
      1 + m
    else 0
  }

  /** `s.lstrip(chars)`: removes leading characters that belong to the SET `chars`. */
  function LStrip(s: string, chars: set<char>): (r: string)
    ensures |r| <= |s| && forall k :: 0 <= k < |r| ==> r[k] == s[|s| - |r| + k]
    ensures forall k :: 0 <= k < |s| - |r| ==> s[k] in chars
    ensures r != [] ==> r[0] !in chars
  {
    s[StripCount(s, chars)..]
  }

  /** `re.sub(pat, rep, s)` for a literal pattern: every non-overlapping occurrence, scanning
      from the left, is replaced. */
  function ReplaceAll(s: string, pat: string, rep: string): string
    requires pat != []
    decreases |s|
  {
    if |s| < |pat| then s
    else if s[..|pat|] == pat then rep + ReplaceAll(s[|pat|..], pat, rep)
    else [s[0]] + ReplaceAll(s[1..], pat, rep)
  }

  /** `re.sub(pat, rep, s, 1)` for a literal pattern: only the leftmost occurrence. */
  function ReplaceFirst(s: string, pat: string, rep: string): string
    requires pat != []
    decreases |s|
  {
    if |s| < |pat| then s
    else if s[..|pat|] == pat then rep + s[|pat|..]
    else [s[0]] + ReplaceFirst(s[1..], pat, rep)
  }

  /** `sep + p1 + sep + p2 + ...`: a list of pieces, each introduced by a separator. */
  function Joined(sep: string, ps: seq<string>): string
  {
    if ps == [] then "" else sep + ps[0] + Joined(sep, ps[1..])
  }

  /** Joining distributes over concatenation of the piece lists. */
  lemma {:induction false} JoinedAppend(sep: string, a: seq<string>, b: seq<string>)
    ensures Joined(sep, a + b) == Joined(sep, a) + Joined(sep, b)
    decreases |a|
  {
    if a == [] {
      assert a + b == b;
    } else {
      assert (a + b)[0] == a[0];
      assert (a + b)[1..] == a[1..] + b;
      JoinedAppend(sep, a[1..], b);
    }
  }

  /** One piece in front is one separator and that piece in front. */
  lemma JoinedCons(sep: string, x: string, ps: seq<string>)
    ensures Joined(sep, [x] + ps) == sep + x + Joined(sep, ps)
  {
    assert ([x] + ps)[0] == x;
    assert ([x] + ps)[1..] == ps;
  }

  /** Concatenation regroups to the left. */
  lemma AppendAssoc(a: string, b: string, c: string)
    ensures a + (b + c) == a + b + c
  {
  }

  /** A single piece is one separator and that piece. */
  lemma JoinedSingle(sep: string, x: string)
    ensures Joined(sep, [x]) == sep + x
  {
    JoinedCons(sep, x, []);
    assert [x] + [] == [x];
    assert sep + x + "" == sep + x;
  }

  lemma JoinedPair(sep: string, x: string, y: string)
    ensures Joined(sep, [x, y]) == sep + x + (sep + y)
  {
    JoinedCons(sep, x, [y]);
    JoinedSingle(sep, y);
    assert [x, y] == [x] + [y];
  }

  /** No piece contains character `c`. */
  predicate NoneContain(ps: seq<string>, c: char)
  {
    forall k :: 0 <= k < |ps| ==> c !in ps[k]
  }

  /** A text in which the pattern cannot start passes through re.sub unchanged and leaves
      the substitution of what follows it untouched. */
  lemma {:induction false} ReplaceAllSkips(x: string, y: string, pat: string, rep: string)
    requires pat != [] && pat[0] !in x
    ensures ReplaceAll(x + y, pat, rep) == x + ReplaceAll(y, pat, rep)
    decreases |x|
  {
    if x != [] {
      var s := x + y;
      assert s[0] == x[0];
      if |s| >= |pat| {
        assert s[..|pat|][0] == x[0];
      }
      assert s[1..] == x[1..] + y;
      ReplaceAllSkips(x[1..], y, pat, rep);
    } else {
      assert x + y == y;
    }
  }

  /** An occurrence at the front is replaced and the scan resumes after it. */
  lemma ReplaceAllFront(y: string, pat: string, rep: string)
    requires pat != []
    ensures ReplaceAll(pat + y, pat, rep) == rep + ReplaceAll(y, pat, rep)
  {
    var s := pat + y;
    assert s[..|pat|] == pat;
    assert s[|pat|..] == y;
  }

  /** The leftmost occurrence is the first one after a text in which the pattern cannot start. */
  lemma {:induction false} ReplaceFirstAfter(x: string, y: string, pat: string, rep: string)
    requires pat != [] && pat[0] !in x
    ensures ReplaceFirst(x + pat + y, pat, rep) == x + rep + y
    decreases |x|
  {
    var s := x + pat + y;
    if x != [] {
      assert s[0] == x[0];
      assert s[..|pat|][0] == x[0];
      assert s[1..] == x[1..] + pat + y;
      ReplaceFirstAfter(x[1..], y, pat, rep);
    } else {
      assert s == pat + y;
      assert s[..|pat|] == pat;
      assert s[|pat|..] == y;
    }
  }

  /** Dropping the first piece keeps the pieces free of `c`. */
  lemma NoneContainTail(ps: seq<string>, c: char)
    requires ps != [] && NoneContain(ps, c)
    ensures c !in ps[0] && NoneContain(ps[1..], c)
  {
    assert forall k :: 0 <= k < |ps[1..]| ==> ps[1..][k] == ps[k + 1];
  }

  /** Four pieces regroup to the left. */
  lemma AppendAssoc4(a: string, b: string, c: string, d: string)
    ensures a + (b + (c + d)) == a + b + c + d
  {
    AppendAssoc(b, c, d);
    AppendAssoc(a, b + c, d);
    AppendAssoc(a, b, c);
  }

  /** re.sub exchanges the separator of a joined list for the replacement, provided the
      pattern cannot start inside a piece or in what follows. */
  lemma {:induction false} ReplaceAllJoined(ps: seq<string>, tail: string, pat: string, rep: string)
    requires pat != [] && NoneContain(ps, pat[0]) && pat[0] !in tail
    ensures ReplaceAll(Joined(pat, ps) + tail, pat, rep) == Joined(rep, ps) + tail
    decreases |ps|
  {
    if ps == [] {
      assert Joined(pat, ps) + tail == tail + [];
      ReplaceAllSkips(tail, [], pat, rep);
      assert tail + [] == tail;
    } else {
      var j, jr := Joined(pat, ps[1..]), Joined(rep, ps[1..]);
      AppendAssoc4(pat, ps[0], j, tail);
      ReplaceAllFront(ps[0] + (j + tail), pat, rep);
      NoneContainTail(ps, pat[0]);
      ReplaceAllSkips(ps[0], j + tail, pat, rep);
      ReplaceAllJoined(ps[1..], tail, pat, rep);
      AppendAssoc4(rep, ps[0], jr, tail);
    }
  }

  /** The leftmost separator after a text in which it cannot start is the first of the list. */
  lemma FirstSeparator(base: string, ps: seq<string>, tail: string, pat: string, first: string)
    requires pat != [] && ps != [] && pat[0] !in base
    ensures ReplaceFirst(base + Joined(pat, ps) + tail, pat, first)
         == (base + first + ps[0]) + (Joined(pat, ps[1..]) + tail)
  {
    var rest := Joined(pat, ps[1..]) + tail;
    assert base + Joined(pat, ps) + tail == base + pat + (ps[0] + rest);
    ReplaceFirstAfter(base, ps[0] + rest, pat, first);
  }

  /** Substituting the first separator with `first` and every later one with `rep`. */
  lemma ReplaceFirstThenAll(base: string, ps: seq<string>, tail: string, pat: string, first: string, rep: string)
    requires pat != [] && ps != [] && pat[0] !in base && pat[0] !in first
    requires NoneContain(ps, pat[0]) && pat[0] !in tail
    ensures ReplaceAll(ReplaceFirst(base + Joined(pat, ps) + tail, pat, first), pat, rep)
         == base + first + ps[0] + Joined(rep, ps[1..]) + tail
  {
    var head := base + first + ps[0];
    var rest := Joined(pat, ps[1..]) + tail;
    FirstSeparator(base, ps, tail, pat, first);
    assert pat[0] !in head by {
      assert pat[0] !in ps[0];
    }
    ReplaceAllSkips(head, rest, pat, rep);
    assert NoneContain(ps[1..], pat[0]) by {
      forall k | 0 <= k < |ps[1..]| ensures pat[0] !in ps[1..][k] {
        assert ps[1..][k] == ps[k + 1];
      }
    }
    ReplaceAllJoined(ps[1..], tail, pat, rep);
  }

  /** The key-value-pair request `base?p1&p2&...&pn`. */
  function Query(base: string, ps: seq<string>): string
    requires ps != []
  {
    base + "?" + ps[0] + Joined("&", ps[1..])
  }

  /** One more parameter is one more `&p` at the end of the query. */
  lemma QueryAppend(base: string, ps: seq<string>, x: string)
    requires ps != []
    ensures Query(base, ps + [x]) == Query(base, ps) + "&" + x
  {
    assert (ps + [x])[1..] == ps[1..] + [x];
    JoinedAppend("&", ps[1..], [x]);
    assert Joined("&", [x]) == "&" + x + Joined("&", []);
  }

  /** A single parameter is the whole query string. */
  lemma QuerySingle(base: string, x: string)
    ensures Query(base, [x]) == base + "?" + x
  {
    assert [x][1..] == [];
    assert base + "?" + x + "" == base + "?" + x;
  }

  /** A named parameter `&name<value>` written after a query extends its parameter list. */
  lemma QueryParam(base: string, ps: seq<string>, name: string, value: string)
    requires ps != []
    ensures Query(base, ps) + "&" + name + value == Query(base, ps + [name + value])
  {
    QueryAppend(base, ps, name + value);
    AppendAssoc(Query(base, ps) + "&", name, value);
  }
}
