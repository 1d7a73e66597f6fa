/** Python string primitives the scraper relies on: strip, lower, `in`,
    startswith/endswith, split on one character and join. Whitespace and
    case are ASCII only. */
module Strings {

  /** The ASCII characters for which str.isspace() holds, which str.strip()
      removes: space, tab, newline, carriage return, the vertical tab and
      form feed, and the four separators 0x1C to 0x1F. */
  predicate IsSpace(c: char) {
    c == ' ' || c == '\t' || c == '\n' || c == '\r' || c == '\U{0B}' || c == '\U{0C}' ||
    c == '\U{1C}' || c == '\U{1D}' || c == '\U{1E}' || c == '\U{1F}'
  }

  predicate AllSpace(s: string) {
    forall i :: 0 <= i < |s| ==> IsSpace(s[i])
  }

  /** str.lstrip(): drops every leading whitespace character. */
  function TrimStart(s: string): (r: string)
    ensures |r| <= |s|
    ensures AllSpace(r) <==> AllSpace(s)
    ensures r == [] || !IsSpace(r[0])
    ensures r != [] ==> r[|r| - 1] == s[|s| - 1]
  {
    if s != [] && IsSpace(s[0]) then TrimStart(s[1..]) else s
  }

  /** str.rstrip(): drops every trailing whitespace character. */
  function TrimEnd(s: string): (r: string)
    ensures |r| <= |s|
    ensures r == [] <==> AllSpace(s)
    ensures r == [] || !IsSpace(r[|r| - 1])
    ensures r != [] ==> r[0] == s[0]
  {
    if s != [] && IsSpace(s[|s| - 1]) then TrimEnd(s[..|s| - 1]) else s
  }

  /** str.strip(). The result is empty exactly when the input is blank, and
      otherwise neither starts nor ends with whitespace. */
  function Strip(s: string): (r: string)
    ensures |r| <= |s|
    ensures r == [] <==> AllSpace(s)
    ensures r != [] ==> !IsSpace(r[0]) && !IsSpace(r[|r| - 1])
  {
    TrimEnd(TrimStart(s))
  }

  /** A string without whitespace at either end is its own strip. */
  lemma StripUnchanged(s: string)
    requires s != [] ==> !IsSpace(s[0]) && !IsSpace(s[|s| - 1])
    ensures Strip(s) == s
  {
    assert TrimStart(s) == s;
  }

  /** The characters JavaScript's String.prototype.trim() removes: the
      ECMAScript WhiteSpace (tab, vertical tab, form feed, space, no-break
      space, the byte order mark and the other space separators) and
      LineTerminator (line feed, carriage return, line and paragraph
      separators) code points. */
  predicate IsJsSpace(c: char) {
    c == '\t' || c == '\n' || c == '\U{0B}' || c == '\U{0C}' || c == '\r' || c == ' ' ||
    c == '\U{A0}' || c == '\U{1680}' || ('\U{2000}' <= c <= '\U{200A}') ||
    c == '\U{2028}' || c == '\U{2029}' || c == '\U{202F}' || c == '\U{205F}' ||
    c == '\U{3000}' || c == '\U{FEFF}'
  }

  predicate AllJsSpace(s: string) {
    forall i :: 0 <= i < |s| ==> IsJsSpace(s[i])
  }

  function JsTrimStart(s: string): (r: string)
    ensures |r| <= |s|
    ensures AllJsSpace(r) <==> AllJsSpace(s)
    ensures r == [] || !IsJsSpace(r[0])
    ensures r != [] ==> r[|r| - 1] == s[|s| - 1]
  {
    if s != [] && IsJsSpace(s[0]) then JsTrimStart(s[1..]) else s
  }

  function JsTrimEnd(s: string): (r: string)
    ensures |r| <= |s|
    ensures r == [] <==> AllJsSpace(s)
    ensures r == [] || !IsJsSpace(r[|r| - 1])
    ensures r != [] ==> r[0] == s[0]
  {
    if s != [] && IsJsSpace(s[|s| - 1]) then JsTrimEnd(s[..|s| - 1]) else s
  }

  /** `s.trim()` in JavaScript. The result is empty exactly when the input
      is all JavaScript whitespace, and otherwise neither starts nor ends
      with it. */
  function JsTrim(s: string): (r: string)
    ensures |r| <= |s|
    ensures r == [] <==> AllJsSpace(s)
    ensures r != [] ==> !IsJsSpace(r[0]) && !IsJsSpace(r[|r| - 1])
  {
    JsTrimEnd(JsTrimStart(s))
  }

  /** A string without JavaScript whitespace at either end is its own trim. */
  lemma JsTrimUnchanged(s: string)
    requires s != [] ==> !IsJsSpace(s[0]) && !IsJsSpace(s[|s| - 1])
    ensures JsTrim(s) == s
  {
    assert JsTrimStart(s) == s;
  }

  /** The two trims differ: JavaScript keeps the information separator
      U+001C, which Python strips, and removes the no-break space, which
      Python's ASCII strip keeps. */
  lemma TrimsDiffer()
    ensures JsTrim("a\U{1C}") == "a\U{1C}" && Strip("a\U{1C}") == "a"
    ensures JsTrim("\U{1C}") != [] && Strip("\U{1C}") == []
  {
    JsTrimUnchanged("a\U{1C}");
    assert TrimEnd("a\U{1C}") == TrimEnd("a");
    assert !IsJsSpace("\U{1C}"[0]);
  }

  function LowerChar(c: char): char {
    if 'A' <= c <= 'Z' then (c as int + 32) as char else c
  }

  /** str.lower() on ASCII letters. */
  function Lower(s: string): (r: string)
    ensures |r| == |s|
    ensures forall i :: 0 <= i < |s| ==> r[i] == LowerChar(s[i])
  {
    seq(|s|, i requires 0 <= i < |s| => LowerChar(s[i]))
  }

  predicate StartsWith(s: string, prefix: string) {
    |prefix| <= |s| && s[..|prefix|] == prefix
  }

  predicate EndsWith(s: string, suffix: string) {
    |suffix| <= |s| && s[|s| - |suffix|..] == suffix
  }

  /** Python's `sub in s`. */
  predicate Contains(s: string, sub: string)
    decreases |s|
  {
    StartsWith(s, sub) || (s != [] && Contains(s[1..], sub))
  }

  lemma {:induction false} ContainsAt(s: string, sub: string, i: nat)
    requires i + |sub| <= |s| && s[i..i + |sub|] == sub
    ensures Contains(s, sub)
    decreases i
  {
    if i > 0 {
      assert s[1..][i - 1..i - 1 + |sub|] == s[i..i + |sub|];
      ContainsAt(s[1..], sub, i - 1);
    }
  }

  lemma {:induction false} ContainsWitness(s: string, sub: string) returns (i: nat)
    requires Contains(s, sub)
    ensures i + |sub| <= |s| && s[i..i + |sub|] == sub
    decreases |s|
  {
    if StartsWith(s, sub) {
      i := 0;
    } else {
      var j := ContainsWitness(s[1..], sub);
      i := j + 1;
      assert s[i..i + |sub|] == s[1..][j..j + |sub|];
    }
  }

  /** A string never contains a longer one. */
  lemma {:induction false} NotContainsLonger(s: string, sub: string)
    requires |sub| > |s|
    ensures !Contains(s, sub)
    decreases |s|
  {
    if s != [] {
      NotContainsLonger(s[1..], sub);
    }
  }

  /** A string that contains `p + q` contains `p`. */
  lemma ContainsPrefixOf(s: string, p: string, q: string)
    requires Contains(s, p + q)
    ensures Contains(s, p)
  {
    var i := ContainsWitness(s, p + q);
    assert s[i..i + |p|] == (p + q)[..|p|] == p;
    ContainsAt(s, p, i);
  }

  /** `sub` occurs in `s` starting at index `i`. */
  predicate MatchesAt(s: string, sub: string, i: nat) {
    i + |sub| <= |s| && s[i..i + |sub|] == sub
  }

  /** A string that matches `sub` at no position does not contain it. */
  lemma {:induction false} NotContainsAnywhere(s: string, sub: string)
    requires forall i: nat :: !MatchesAt(s, sub, i)
    ensures !Contains(s, sub)
    decreases |s|
  {
    if |sub| <= |s| {
      assert !MatchesAt(s, sub, 0);
      assert s[..|sub|] == s[0..|sub|];
    }
    if s != [] {
      var t := s[1..];
      forall i: nat
        ensures !MatchesAt(t, sub, i)
      {
        assert !MatchesAt(s, sub, i + 1);
        if i + |sub| <= |t| {
          assert t[i..i + |sub|] == s[i + 1..i + 1 + |sub|];
        }
      }
      NotContainsAnywhere(t, sub);
    }
  }

  /** Every string contains the empty string. */
  lemma ContainsEmpty(s: string)
    ensures Contains(s, "")
  {
    ContainsAt(s, "", 0);
  }

  /** Index of the first occurrence of `c`, or |s| when there is none. */
  function IndexOf(s: string, c: char): (i: nat)
    ensures i <= |s|
    ensures forall k :: 0 <= k < i ==> s[k] != c
    ensures i < |s| ==> s[i] == c
    ensures i == |s| <==> c !in s
  {
    if s == [] then 0
    else if s[0] == c then 0
    else
      IndexOf(s[1..], c) + 1
  }

  /** str.split(c) for a one-character separator: the pieces between
      separators, always at least one. */
  function Split(s: string, c: char): (parts: seq<string>)
    ensures |parts| >= 1
    ensures forall k :: 0 <= k < |parts| ==> c !in parts[k]
    decreases |s|
  {
    var i := IndexOf(s, c);
    if i == |s| then [s]
    else
      var rest := Split(s[i + 1..], c);
      [s[..i]] + rest
  }

  /** sep.join(parts). */
  function Join(sep: string, parts: seq<string>): string {
    if parts == [] then ""
    else if |parts| == 1 then parts[0]
    else parts[0] + sep + Join(sep, parts[1..])
  }

  /** Splitting on `c` and joining with `c` gives back the input. */
  lemma {:induction false} JoinSplit(s: string, c: char)
    ensures Join([c], Split(s, c)) == s
    decreases |s|
  {
    var i := IndexOf(s, c);
    if i < |s| {
      var head, tail := s[..i], s[i + 1..];
      JoinSplit(tail, c);
      SplitUnfold(s, c);
      JoinPrepend(head, Split(tail, c), [c]);
      SliceAround(s, i);
    } else {
      assert Split(s, c) == [s];
    }
  }

  /** A sequence is the part before an index, the element there and the part after. */
  lemma SliceAround<T>(s: seq<T>, i: nat)
    requires i < |s|
    ensures s == s[..i] + [s[i]] + s[i + 1..]
  {
  }

  lemma SplitUnfold(s: string, c: char)
    requires IndexOf(s, c) < |s|
    ensures Split(s, c) == [s[..IndexOf(s, c)]] + Split(s[IndexOf(s, c) + 1..], c)
  {
  }

  lemma JoinPrepend(first: string, rest: seq<string>, sep: string)
    requires rest != []
    ensures Join(sep, [first] + rest) == first + sep + Join(sep, rest)
  {
    assert ([first] + rest)[1..] == rest;
  }

  /** Joining pieces that do not contain `c` with `c`, then splitting on `c`,
      gives back the pieces. */
  lemma {:induction false} SplitJoin(parts: seq<string>, c: char)
    requires |parts| >= 1
    requires forall k :: 0 <= k < |parts| ==> c !in parts[k]
    ensures Split(Join([c], parts), c) == parts
  {
    if |parts| > 1 {
      var head, rest := parts[0], parts[1..];
      JoinCons([c], parts);
      SplitJoin(rest, c);
      SplitAround(head, c, Join([c], rest));
      SplitWithout(head, c);
      assert parts == [head] + rest;
    } else {
      assert Join([c], parts) == parts[0];
    }
  }

  /** Splitting at a separator between two strings splits each side. */
  lemma {:induction false} SplitAround(x: string, c: char, y: string)
    ensures Split(x + [c] + y, c) == Split(x, c) + Split(y, c)
    decreases |x|
  {
    var i := IndexOf(x, c);
    if i == |x| {
      SplitAtFirst(x, c, y);
      SplitWithout(x, c);
    } else {
      var head, tail := x[..i], x[i + 1..];
      SliceAround(x, i);
      Regroup(head, c, tail, y);
      SplitAtFirst(head, c, tail + [c] + y);
      SplitAtFirst(head, c, tail);
      SplitAround(tail, c, y);
      ConsAppend(head, Split(tail, c), Split(y, c));
    }
  }

  /** The first separator ends the first piece. */
  lemma SplitAtFirst(a: string, c: char, b: string)
    requires c !in a
    ensures Split(a + [c] + b, c) == [a] + Split(b, c)
  {
    var s := a + [c] + b;
    IndexOfAt(s, c, |a|);
    SplitUnfold(s, c);
    assert s[..|a|] == a;
    assert s[|a| + 1..] == b;
  }

  lemma Regroup<T>(p: seq<T>, c: T, q: seq<T>, r: seq<T>)
    ensures (p + [c] + q) + [c] + r == p + [c] + (q + [c] + r)
  {
  }

  lemma ConsAppend<T>(a: T, xs: seq<T>, ys: seq<T>)
    ensures [a] + (xs + ys) == ([a] + xs) + ys
  {
  }

  /** The first occurrence is the one at `i` when `i` holds `c` and no
      earlier index does. */
  lemma IndexOfAt(s: string, c: char, i: nat)
    requires i < |s| && s[i] == c
    requires forall k :: 0 <= k < i ==> s[k] != c
    ensures IndexOf(s, c) == i
  {
  }

  /** A string without the separator splits into itself. */
  lemma SplitWithout(s: string, c: char)
    requires forall k :: 0 <= k < |s| ==> s[k] != c
    ensures Split(s, c) == [s]
  {
  }

  /** str.strip(chars) for one character: drops it from both ends. */
  function StripChar(s: string, c: char): (r: string)
    ensures |r| <= |s|
    ensures r != [] ==> r[0] != c && r[|r| - 1] != c
    decreases |s|
  {
    if s == [] then []
    else if s[0] == c then StripChar(s[1..], c)
    else if s[|s| - 1] == c then StripChar(s[..|s| - 1], c)
    else s
  }

  /** With at least two pieces, joining them again puts exactly one
      separator after the first piece. */
  lemma JoinCons(sep: string, parts: seq<string>)
    requires |parts| >= 2
    ensures Join(sep, parts) == parts[0] + sep + Join(sep, parts[1..])
  {
  }
}
